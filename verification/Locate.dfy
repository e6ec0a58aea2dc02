/** Placing job ids on hosts by asking them (`_ask_around` and `locate_many` in
    gpuc/control/actions.py). */
module Locate {
  import opened Lists

  type Name(==, !new)
  type Id(==, !new)

  /** What asking a host produces: the jobs it lists, a host that does not
      exist any more, or one that could not be asked. */
  datatype Asked = Answered(jobs: seq<Id>) | Gone | Unaskable

  /** A host asked about some jobs, and what came of it. */
  datatype Question = Question(host: Name, jobs: seq<Id>, asked: Asked)

  /** Where a job is: on a host, with what asking it produced if it was asked;
      or nowhere, `missing` when that is certain. */
  datatype Placed =
    | Location(host: Name, registered: bool, asked: Option<Asked>)
    | Unlocated(missing: bool)

  /** The host was asked for the job and lists it. */
  predicate Admits(q: Question, job: Id) {
    job in q.jobs && q.asked.Answered? && job in q.asked.jobs
  }

  /** The host was asked for the job and answered without it. */
  predicate Denies(q: Question, job: Id) {
    job in q.jobs && q.asked.Answered? && job !in q.asked.jobs
  }

  // What the dictionaries of the two rounds hold, in terms of the questions put.

  function LastAsked(log: seq<Question>, host: Name): Option<Asked> {
    if log == [] then None
    else if log[|log| - 1].host == host then Some(log[|log| - 1].asked)
    else LastAsked(log[..|log| - 1], host)
  }

  function FirstAsked(log: seq<Question>, host: Name): Option<Asked> {
    if log == [] then None
    else
      var before := FirstAsked(log[..|log| - 1], host);
      if before.None? && log[|log| - 1].host == host then Some(log[|log| - 1].asked) else before
  }

  function FoundBy(log: seq<Question>, job: Id): Option<Question> {
    if log == [] then None
    else
      var before := FoundBy(log[..|log| - 1], job);
      if before.None? && Admits(log[|log| - 1], job) then Some(log[|log| - 1]) else before
  }

  lemma {:induction false} FoundByIs(log: seq<Question>, job: Id)
    ensures FoundBy(log, job).Some? ==> FoundBy(log, job).value in log && Admits(FoundBy(log, job).value, job)
    ensures FoundBy(log, job).None? ==> forall q :: q in log ==> !Admits(q, job)
  {
    if log != [] {
      FoundByIs(log[..|log| - 1], job);
      assert log == log[..|log| - 1] + [log[|log| - 1]];
    }
  }

  /** Hosts asked once each: then the first and the last word are the only one. */
  predicate OnceEach(qs: seq<Question>) {
    forall i, j :: 0 <= i < j < |qs| ==> qs[i].host != qs[j].host
  }

  predicate Asks(qs: seq<Question>, host: Name) {
    exists q :: q in qs && q.host == host
  }

  lemma {:induction false} Earlier(a: seq<Question>, q: Question, host: Name)
    ensures Asks(a + [q], host) <==> Asks(a, host) || q.host == host
  {
    if Asks(a, host) {
      var x :| x in a && x.host == host;
      assert x in a + [q];
    }
    assert q in a + [q];
  }

  /** Of two rounds, the last word is the second's if it asked, and the first
      word the first's if it did. */
  lemma {:induction false} TwoRounds(a: seq<Question>, b: seq<Question>, host: Name)
    ensures LastAsked(a + b, host) == if Asks(b, host) then LastAsked(b, host) else LastAsked(a, host)
    ensures FirstAsked(a + b, host) == if FirstAsked(a, host).Some? then FirstAsked(a, host) else FirstAsked(b, host)
  {
    if b == [] {
      assert a + b == a;
    } else {
      var c, q := b[..|b| - 1], b[|b| - 1];
      assert b == c + [q] && (a + b)[..|a + b| - 1] == a + c;
      TwoRounds(a, c, host);
      Earlier(c, q, host);
    }
  }

  lemma {:induction false} OneRound(qs: seq<Question>, q: Question)
    requires OnceEach(qs) && q in qs
    ensures LastAsked(qs, q.host) == FirstAsked(qs, q.host) == Some(q.asked)
  {
    var c, l := qs[..|qs| - 1], qs[|qs| - 1];
    assert qs == c + [l];
    if q in c {
      OneRound(c, q);
    } else {
      NeverAsked(c, q.host);
    }
  }

  lemma {:induction false} NeverAsked(qs: seq<Question>, host: Name)
    requires forall q :: q in qs ==> q.host != host
    ensures LastAsked(qs, host) == FirstAsked(qs, host) == None
  {
    if qs != [] {
      NeverAsked(qs[..|qs| - 1], host);
      assert qs[|qs| - 1] in qs;
    }
  }

  /** Every word from a host is a question's. */
  lemma {:induction false} WordIsAQuestion(qs: seq<Question>, host: Name)
    ensures LastAsked(qs, host).Some? ==> exists q :: q in qs && q.host == host && LastAsked(qs, host) == Some(q.asked)
    ensures FirstAsked(qs, host).Some? ==> exists q :: q in qs && q.host == host && FirstAsked(qs, host) == Some(q.asked)
  {
    if qs != [] {
      WordIsAQuestion(qs[..|qs| - 1], host);
      assert qs == qs[..|qs| - 1] + [qs[|qs| - 1]];
    }
  }

  // Where that leaves a job.

  /** A host other than the one the index named has for its last word that it
      could not be asked. */
  ghost predicate SomeUnasked(log: seq<Question>, entry: Option<Name>) {
    exists h :: LastAsked(log, h) == Some(Unaskable) && Some(h) != entry
  }

  /** What `_ask_around` says of a job, given the host the index named for it
      and that host again if it is registered. */
  ghost function Verdict(log: seq<Question>, job: Id, indexed: Option<Name>, entry: Option<Name>): Placed
    requires entry.Some? ==> indexed == entry
  {
    if FoundBy(log, job).Some? then Location(FoundBy(log, job).value.host, true, Some(FoundBy(log, job).value.asked))
    else if entry.Some? && FirstAsked(log, entry.value).Some? && !FirstAsked(log, entry.value).value.Answered? then
      Location(entry.value, true, FirstAsked(log, entry.value))
    else if SomeUnasked(log, entry) then Unlocated(false)
    else if indexed.Some? && entry.None? then Location(indexed.value, false, Some(Gone))
    else Unlocated(true)
  }

  function Entry(indexed: Option<Name>, hosts: seq<Name>): Option<Name> {
    if indexed.Some? && indexed.value in hosts then indexed else None
  }

  /** The first round asks each registered host the index names about the jobs
      it names it for. */
  predicate FirstRound(qs: seq<Question>, index: map<Id, Option<Name>>, hosts: seq<Name>) {
    && OnceEach(qs)
    && (forall q :: q in qs ==> q.host in hosts && q.jobs != [])
    && (forall q, j :: q in qs && j in q.jobs ==> j in index && Entry(index[j], hosts) == Some(q.host))
    && (forall j :: j in index && Entry(index[j], hosts).Some? ==>
         exists q :: q in qs && q.host == Entry(index[j], hosts).value && j in q.jobs)
  }

  /** The second round leaves out the hosts that did not answer the first, and
      asks each other one about every job not found yet that it was not asked
      about. */
  predicate SecondRound(qs: seq<Question>, before: seq<Question>, index: map<Id, Option<Name>>, hosts: seq<Name>) {
    && OnceEach(qs)
    && (forall q :: q in qs ==> q.host in hosts && q.jobs != [] && (LastAsked(before, q.host).Some? ==> LastAsked(before, q.host).value.Answered?))
    && (forall q, j :: q in qs && j in q.jobs ==> j in index && Wants(q.host, j, before, index, hosts))
    && (forall h, j :: h in hosts && j in index && Wants(h, j, before, index, hosts)
                       && (LastAsked(before, h).Some? ==> LastAsked(before, h).value.Answered?) ==>
         exists q :: q in qs && q.host == h && j in q.jobs)
  }

  /** Every answer is the one that host gave in that round. */
  ghost predicate AnsweredBy(qs: seq<Question>, answers: Name -> Asked) {
    forall q :: q in qs ==> q.asked == answers(q.host)
  }

  predicate Wants(host: Name, job: Id, before: seq<Question>, index: map<Id, Option<Name>>, hosts: seq<Name>)
    requires job in index
  {
    FoundBy(before, job).None? && Entry(index[job], hosts) != Some(host)
  }

  /** The host answered a question naming the job without listing it, or does
      not exist any more. */
  predicate RuledOut(log: seq<Question>, host: Name, job: Id) {
    exists q :: q in log && q.host == host && (Denies(q, job) || q.asked.Gone?)
  }

  lemma {:induction false} FoundStays(a: seq<Question>, b: seq<Question>, job: Id)
    requires FoundBy(a + b, job).None?
    ensures FoundBy(a, job).None?
  {
    FoundByIs(a, job);
    FoundByIs(a + b, job);
  }

  /** One host, when a job is about to be called missing. */
  lemma {:induction false} HostIsRuledOut(a: seq<Question>, b: seq<Question>, index: map<Id, Option<Name>>, hosts: seq<Name>, job: Id, host: Name)
    requires FirstRound(a, index, hosts) && SecondRound(b, a, index, hosts) && job in index && host in hosts
    requires FoundBy(a + b, job).None?
    requires Entry(index[job], hosts) == Some(host) ==> FirstAsked(a + b, host).Some? && FirstAsked(a + b, host).value.Answered?
    requires Entry(index[job], hosts) != Some(host) ==> LastAsked(a + b, host) != Some(Unaskable)
    ensures RuledOut(a + b, host, job)
  {
    hide FoundBy, LastAsked, FirstAsked, OnceEach;
    FoundByIs(a + b, job);
    FoundStays(a, b, job);
    TwoRounds(a, b, host);
    if Entry(index[job], hosts) == Some(host) {
      var q :| q in a && q.host == host && job in q.jobs;
      OneRound(a, q);
      assert q in a + b && !Admits(q, job);
    } else if LastAsked(a, host).Some? && !LastAsked(a, host).value.Answered? {
      WordIsAQuestion(a, host);
      var q :| q in a && q.host == host && LastAsked(a, host) == Some(q.asked);
      assert q in a + b;
    } else {
      assert Wants(host, job, a, index, hosts);
      var q :| q in b && q.host == host && job in q.jobs;
      OneRound(b, q);
      assert q in a + b && !Admits(q, job);
    }
  }

  /** And the other way round: a host that is ruled out has a last word other
      than that it could not be asked. */
  lemma {:induction false} RuledOutHasAWord(a: seq<Question>, b: seq<Question>, index: map<Id, Option<Name>>, hosts: seq<Name>, job: Id, host: Name)
    requires FirstRound(a, index, hosts) && SecondRound(b, a, index, hosts) && job in index
    requires RuledOut(a + b, host, job) && Entry(index[job], hosts) != Some(host)
    ensures LastAsked(a + b, host) != Some(Unaskable)
  {
    TwoRounds(a, b, host);
    var q :| q in a + b && q.host == host && (Denies(q, job) || q.asked.Gone?);
    if q in b {
      OneRound(b, q);
    } else {
      OneRound(a, q);
      forall x | x in b
        ensures x.host != host
      {
        assert LastAsked(a, host) == Some(Gone);
      }
    }
  }

  lemma {:induction false} UnaskedIsAHost(a: seq<Question>, b: seq<Question>, index: map<Id, Option<Name>>, hosts: seq<Name>, host: Name)
    requires FirstRound(a, index, hosts) && SecondRound(b, a, index, hosts) && LastAsked(a + b, host).Some?
    ensures host in hosts
  {
    WordIsAQuestion(a + b, host);
    var q :| q in a + b && q.host == host && LastAsked(a + b, host) == Some(q.asked);
  }

  /** The host the index named for the job, if it is registered, answered
      without it in the first round. */
  predicate OwnHostDenies(a: seq<Question>, indexed: Option<Name>, hosts: seq<Name>, job: Id) {
    indexed.Some? ==> indexed.value in hosts && exists q :: q in a && q.host == indexed.value && Denies(q, job)
  }

  lemma {:induction false} OwnHost(a: seq<Question>, b: seq<Question>, index: map<Id, Option<Name>>, hosts: seq<Name>, job: Id, host: Name)
    requires FirstRound(a, index, hosts) && job in index && Entry(index[job], hosts) == Some(host) && FoundBy(a + b, job).None?
    ensures FirstAsked(a + b, host).Some?
    ensures FirstAsked(a + b, host).value.Answered? <==> exists q :: q in a && q.host == host && Denies(q, job)
  {
    FoundByIs(a + b, job);
    var q :| q in a && q.host == host && job in q.jobs;
    assert q in a + b && !Admits(q, job);
    OneRound(a, q);
    TwoRounds(a, b, host);
    if exists x :: x in a && x.host == host && Denies(x, job) {
      var x :| x in a && x.host == host && Denies(x, job);
      OneRound(a, x);
    }
  }

  /** "No such job" is said exactly when no host that was asked has it, every
      registered host answered a question naming it without listing it or is
      gone, and the host the index named for it, if any, is registered and
      answered without it. */
  lemma {:induction false} MissingIsExact(a: seq<Question>, b: seq<Question>, index: map<Id, Option<Name>>, hosts: seq<Name>, job: Id)
    requires FirstRound(a, index, hosts) && SecondRound(b, a, index, hosts) && job in index
    ensures Verdict(a + b, job, index[job], Entry(index[job], hosts)) == Unlocated(true) <==>
      && (forall q :: q in a + b ==> !Admits(q, job))
      && (forall h :: h in hosts ==> RuledOut(a + b, h, job))
      && OwnHostDenies(a, index[job], hosts, job)
  {
    var entry := Entry(index[job], hosts);
    FoundByIs(a + b, job);
    if FoundBy(a + b, job).None? {
      if entry.Some? {
        OwnHost(a, b, index, hosts, job, entry.value);
      }
      if Verdict(a + b, job, index[job], entry) == Unlocated(true) {
        forall h | h in hosts
          ensures RuledOut(a + b, h, job)
        {
          HostIsRuledOut(a, b, index, hosts, job, h);
        }
      } else if OwnHostDenies(a, index[job], hosts, job) {
        var h :| LastAsked(a + b, h) == Some(Unaskable) && Some(h) != entry;
        UnaskedIsAHost(a, b, index, hosts, h);
        if RuledOut(a + b, h, job) {
          RuledOutHasAWord(a, b, index, hosts, job, h);
        }
      }
    }
  }

  /** A job is placed on a host that admits to it exactly when some host does. */
  lemma {:induction false} AdmittedIsPlaced(log: seq<Question>, job: Id, indexed: Option<Name>, entry: Option<Name>)
    requires entry.Some? ==> indexed == entry
    ensures (exists q :: q in log && Admits(q, job)) ==>
      exists q :: q in log && Admits(q, job) && Verdict(log, job, indexed, entry) == Location(q.host, true, Some(q.asked))
    ensures !(exists q :: q in log && Admits(q, job)) ==>
      var v := Verdict(log, job, indexed, entry);
      v.Location? ==> indexed == Some(v.host) && (v.registered <==> entry.Some?) && v.asked.Some? && !v.asked.value.Answered?
  {
    FoundByIs(log, job);
  }

  /** The first question of these whose host admits to the job. */
  ghost predicate FirstAdmission(log: seq<Question>, job: Id, q: Question) {
    exists i :: 0 <= i < |log| && log[i] == q && Admits(q, job) && forall k :: 0 <= k < i ==> !Admits(log[k], job)
  }

  ghost predicate NobodyAdmits(log: seq<Question>, job: Id) {
    forall q :: q in log ==> !Admits(q, job)
  }

  /** Asked about the job in the first round, its own host did not answer. */
  predicate OwnHostFails(a: seq<Question>, job: Id, host: Name, word: Asked) {
    !word.Answered? && exists q :: q in a && q.host == host && job in q.jobs && q.asked == word
  }

  /** Some other host could not be asked. */
  predicate OthersUnaskable(log: seq<Question>, entry: Option<Name>) {
    exists q :: q in log && q.asked.Unaskable? && Some(q.host) != entry
  }

  /** Where a job is placed, by the questions put: on the first host that admits
      to it; else on its own registered host if that did not answer, with what
      came of asking it; else nowhere, while some other host could not be asked;
      else on the host the index names, if that is not registered any more; and
      else it is missing. */
  ghost predicate PlacedBy(a: seq<Question>, b: seq<Question>, job: Id, indexed: Option<Name>, entry: Option<Name>, placed: Placed) {
    && (forall q :: FirstAdmission(a + b, job, q) ==> placed == Location(q.host, true, Some(q.asked)))
    && (NobodyAdmits(a + b, job) ==>
         && (forall word :: entry.Some? && OwnHostFails(a, job, entry.value, word) ==> placed == Location(entry.value, true, Some(word)))
         && ((forall word :: entry.Some? ==> !OwnHostFails(a, job, entry.value, word)) ==>
              placed == if OthersUnaskable(a + b, entry) then Unlocated(false)
                        else if indexed.Some? && entry.None? then Location(indexed.value, false, Some(Gone))
                        else Unlocated(true)))
  }

  lemma {:induction false} FoundFirst(log: seq<Question>, job: Id, q: Question)
    requires FirstAdmission(log, job, q)
    ensures FoundBy(log, job) == Some(q)
  {
    var i :| 0 <= i < |log| && log[i] == q && Admits(q, job) && forall k :: 0 <= k < i ==> !Admits(log[k], job);
    FoundAt(log, job, i);
  }

  lemma {:induction false} FoundAt(log: seq<Question>, job: Id, i: nat)
    requires i < |log| && Admits(log[i], job) && forall k :: 0 <= k < i ==> !Admits(log[k], job)
    ensures FoundBy(log, job) == Some(log[i])
  {
    hide Admits;
    var before := log[..|log| - 1];
    if i < |before| {
      FoundAt(before, job, i);
    } else {
      FoundByIs(before, job);
      assert forall q :: q in before ==> !Admits(q, job);
    }
  }

  /** Of two rounds with each host once in each and none asked again that did not
      answer, what could not be asked stays so. */
  lemma {:induction false} UnaskableIs(a: seq<Question>, b: seq<Question>, index: map<Id, Option<Name>>, hosts: seq<Name>, entry: Option<Name>)
    requires FirstRound(a, index, hosts) && SecondRound(b, a, index, hosts)
    ensures OthersUnaskable(a + b, entry) <==> SomeUnasked(a + b, entry)
  {
    hide LastAsked, OnceEach;
    if OthersUnaskable(a + b, entry) {
      var q :| q in a + b && q.asked.Unaskable? && Some(q.host) != entry;
      TwoRounds(a, b, q.host);
      if q in b {
        OneRound(b, q);
        assert Asks(b, q.host);
      } else {
        OneRound(a, q);
        forall x | x in b
          ensures x.host != q.host
        {
          assert LastAsked(a, q.host) == Some(Unaskable);
        }
      }
      assert LastAsked(a + b, q.host) == Some(Unaskable);
    }
    if SomeUnasked(a + b, entry) {
      var h :| LastAsked(a + b, h) == Some(Unaskable) && Some(h) != entry;
      WordIsAQuestion(a + b, h);
      var q :| q in a + b && q.host == h && LastAsked(a + b, h) == Some(q.asked);
    }
  }

  /** The first word of a job's own host is what came of asking it about the
      job. */
  lemma {:induction false} OwnWord(a: seq<Question>, b: seq<Question>, index: map<Id, Option<Name>>, hosts: seq<Name>, job: Id, host: Name)
    requires FirstRound(a, index, hosts) && job in index && Entry(index[job], hosts) == Some(host)
    ensures FirstAsked(a + b, host).Some?
    ensures forall word :: OwnHostFails(a, job, host, word) <==> !word.Answered? && FirstAsked(a + b, host) == Some(word)
  {
    hide FirstAsked, OnceEach;
    var q :| q in a && q.host == host && job in q.jobs;
    OneRound(a, q);
    TwoRounds(a, b, host);
    forall word
      ensures OwnHostFails(a, job, host, word) <==> !word.Answered? && FirstAsked(a + b, host) == Some(word)
    {
      if OwnHostFails(a, job, host, word) {
        var x :| x in a && x.host == host && job in x.jobs && x.asked == word;
        OneRound(a, x);
      }
    }
  }

  lemma {:induction false} PlacedExactly(a: seq<Question>, b: seq<Question>, index: map<Id, Option<Name>>, hosts: seq<Name>, job: Id)
    requires FirstRound(a, index, hosts) && SecondRound(b, a, index, hosts) && job in index
    ensures var entry := Entry(index[job], hosts); PlacedBy(a, b, job, index[job], entry, Verdict(a + b, job, index[job], entry))
  {
    hide FirstRound, SecondRound, FirstAsked, FoundBy, Admits, SomeUnasked, OthersUnaskable, FirstAdmission, OwnHostFails;
    var entry := Entry(index[job], hosts);
    FoundByIs(a + b, job);
    UnaskableIs(a, b, index, hosts, entry);
    if entry.Some? {
      OwnWord(a, b, index, hosts, job, entry.value);
    }
    forall q | FirstAdmission(a + b, job, q)
      ensures Verdict(a + b, job, index[job], entry) == Location(q.host, true, Some(q.asked))
    {
      FoundFirst(a + b, job, q);
    }
  }

  // The program.

  /** `questions`, a dictionary of lists: each host once, in the order put there. */
  datatype Questions = Questions(order: seq<Name>, jobs: map<Name, seq<Id>>)

  predicate IsDict(qs: Questions) {
    NoDup(qs.order) && Elems(qs.order) == qs.jobs.Keys
  }

  /** `questions.setdefault(host, []).append(job)` */
  function Appended(qs: Questions, host: Name, job: Id): (r: Questions)
    requires IsDict(qs)
    ensures r.jobs.Keys == qs.jobs.Keys + {host}
    ensures forall h :: h in r.jobs ==>
      r.jobs[h] == (if h in qs.jobs then qs.jobs[h] else []) + if h == host then [job] else []
  {
    if host in qs.jobs then Questions(qs.order, qs.jobs[host := qs.jobs[host] + [job]])
    else Questions(qs.order + [host], qs.jobs[host := [job]])
  }

  lemma {:induction false} AppendedIsDict(qs: Questions, host: Name, job: Id)
    requires IsDict(qs)
    ensures IsDict(Appended(qs, host, job))
  {
    assert forall h :: h in qs.order <==> h in Elems(qs.order);
  }

  /** The questions of one round with their answers. */
  function Put(qs: Questions, answers: Name -> Asked): (log: seq<Question>)
    requires IsDict(qs)
    ensures |log| == |qs.order|
    ensures forall i :: 0 <= i < |log| ==> log[i] == Question(qs.order[i], qs.jobs[qs.order[i]], answers(qs.order[i]))
  {
    assert forall i :: 0 <= i < |qs.order| ==> qs.order[i] in Elems(qs.order);
    seq(|qs.order|, i requires 0 <= i < |qs.order| => Question(qs.order[i], qs.jobs[qs.order[i]], answers(qs.order[i])))
  }

  /** The state the two rounds share. */
  class Survey {
    var latest: map<Name, Asked>
    var first: map<Name, Asked>
    var found: map<Id, (Name, Asked)>
    /** Every question put so far. */
    ghost var log: seq<Question>

    ghost predicate Valid()
      reads this
    {
      && (forall h :: LastAsked(log, h) == if h in latest then Some(latest[h]) else None)
      && (forall h :: FirstAsked(log, h) == if h in first then Some(first[h]) else None)
      && (forall j :: if j in found then FoundBy(log, j).Some?
                        && found[j] == (FoundBy(log, j).value.host, FoundBy(log, j).value.asked)
                      else FoundBy(log, j).None?)
    }

    constructor ()
      ensures Valid() && log == []
    {
      latest, first, found, log := map[], map[], map[], [];
    }

    /** What is done with one host's answer. */
    method Hear(host: Name, jobs: seq<Id>, asked: Asked)
      requires Valid()
      modifies this
      ensures Valid() && log == old(log) + [Question(host, jobs, asked)]
    {
      ghost var q, before := Question(host, jobs, asked), log;
      log := log + [q];
      assert log[..|log| - 1] == before;
      latest := latest[host := asked];
      if host !in first {
        first := first[host := asked];
      }
      if asked.Answered? {
        ghost var were := found;
        for i := 0 to |asked.jobs|
          invariant log == before + [q] && latest == old(latest)[host := asked]
          invariant first == if host in old(first) then old(first) else old(first)[host := asked]
          invariant forall j :: j in were ==> j in found && found[j] == were[j]
          invariant forall j :: j in found && j !in were ==> j in jobs && j in asked.jobs && found[j] == (host, asked)
          invariant forall k :: 0 <= k < i && asked.jobs[k] in jobs ==> asked.jobs[k] in found
        {
          var job := asked.jobs[i];
          if job in jobs && job !in found {
            found := found[job := (host, asked)];
          }
        }
      }
    }

    /** `ask_each`: every host of the questions once, in order. */
    method AskEach(qs: Questions, answers: Name -> Asked)
      requires Valid() && IsDict(qs)
      modifies this
      ensures Valid() && log == old(log) + Put(qs, answers)
    {
      ghost var before := log;
      for i := 0 to |qs.order|
        invariant Valid() && log == before + Put(qs, answers)[..i]
      {
        assert qs.order[i] in Elems(qs.order);
        Hear(qs.order[i], qs.jobs[qs.order[i]], answers(qs.order[i]));
      }
    }
  }

  // The two rounds of questions.

  /** The jobs of the first `k` ids that the index places on this host. */
  predicate NamedFor(qs: Questions, ids: seq<Id>, k: nat, index: map<Id, Option<Name>>, hosts: seq<Name>)
    requires k <= |ids| && forall j :: j in ids ==> j in index
  {
    && (forall h :: h in qs.jobs ==> h in hosts && qs.jobs[h] != [] && forall j :: j in qs.jobs[h] ==> j in index && Entry(index[j], hosts) == Some(h))
    && (forall i :: 0 <= i < k && Entry(index[ids[i]], hosts).Some? ==>
         Entry(index[ids[i]], hosts).value in qs.jobs && ids[i] in qs.jobs[Entry(index[ids[i]], hosts).value])
  }

  lemma {:induction false} NamedNext(qs: Questions, more: Questions, ids: seq<Id>, i: nat, index: map<Id, Option<Name>>, hosts: seq<Name>)
    requires (forall j :: j in ids ==> j in index) && i < |ids| && NamedFor(qs, ids, i, index, hosts)
    requires Entry(index[ids[i]], hosts).Some?
    requires var host := Entry(index[ids[i]], hosts).value;
             && more.jobs.Keys == qs.jobs.Keys + {host}
             && (forall h :: h in qs.jobs && h != host ==> more.jobs[h] == qs.jobs[h])
             && more.jobs[host] == (if host in qs.jobs then qs.jobs[host] else []) + [ids[i]]
    ensures NamedFor(more, ids, i + 1, index, hosts)
  {
    var host := Entry(index[ids[i]], hosts).value;
    forall h | h in more.jobs
      ensures h in hosts && more.jobs[h] != [] && forall j :: j in more.jobs[h] ==> j in index && Entry(index[j], hosts) == Some(h)
    {
      if h != host {
        assert h in qs.jobs;
      }
    }
    assert ids[i] in more.jobs[host];
    hide Entry;
  }

  method ByNamed(ids: seq<Id>, index: map<Id, Option<Name>>, hosts: seq<Name>) returns (qs: Questions)
    requires forall j :: j in ids ==> j in index
    ensures IsDict(qs) && NamedFor(qs, ids, |ids|, index, hosts)
  {
    hide Appended;
    qs := Questions([], map[]);
    for i := 0 to |ids|
      invariant IsDict(qs) && NamedFor(qs, ids, i, index, hosts)
    {
      assert ids[i] in ids;
      var entry := Entry(index[ids[i]], hosts);
      if entry.Some? {
        AppendedIsDict(qs, entry.value, ids[i]);
        NamedNext(qs, Appended(qs, entry.value, ids[i]), ids, i, index, hosts);
        qs := Appended(qs, entry.value, ids[i]);
      }
    }
  }

  /** The ids not found yet that this host was not asked about, in order. */
  function Wanted(host: Name, rest: seq<Id>, index: map<Id, Option<Name>>, hosts: seq<Name>): (r: seq<Id>)
    requires forall j :: j in rest ==> j in index
    ensures forall j :: j in r <==> j in rest && Entry(index[j], hosts) != Some(host)
  {
    if rest == [] then []
    else (if Entry(index[rest[0]], hosts) != Some(host) then [rest[0]] else []) + Wanted(host, rest[1..], index, hosts)
  }

  predicate Answering(latest: map<Name, Asked>, host: Name) {
    host in latest ==> latest[host].Answered?
  }

  /** What the second round asks of the first `k` hosts. */
  predicate AskedOf(qs: Questions, k: nat, rest: seq<Id>, latest: map<Name, Asked>, index: map<Id, Option<Name>>, hosts: seq<Name>)
    requires k <= |hosts| && forall j :: j in rest ==> j in index
  {
    && (forall h :: h in qs.jobs ==> h in hosts[..k] && Answering(latest, h) && qs.jobs[h] != [] && qs.jobs[h] == Wanted(h, rest, index, hosts))
    && (forall i :: 0 <= i < k && Answering(latest, hosts[i]) && Wanted(hosts[i], rest, index, hosts) != [] ==> hosts[i] in qs.jobs)
  }

  lemma {:induction false} NotYet(hosts: seq<Name>, i: nat)
    requires NoDup(hosts) && i < |hosts|
    ensures hosts[i] !in hosts[..i] && hosts[..i + 1] == hosts[..i] + [hosts[i]]
  {
  }

  lemma {:induction false} AskedNext(qs: Questions, more: Questions, i: nat, rest: seq<Id>, latest: map<Name, Asked>, index: map<Id, Option<Name>>, hosts: seq<Name>)
    requires NoDup(hosts) && i < |hosts| && (forall j :: j in rest ==> j in index)
    requires AskedOf(qs, i, rest, latest, index, hosts)
    requires var wanted := Wanted(hosts[i], rest, index, hosts);
             if Answering(latest, hosts[i]) && wanted != [] then more.jobs == qs.jobs[hosts[i] := wanted] else more == qs
    ensures hosts[i] !in qs.jobs && AskedOf(more, i + 1, rest, latest, index, hosts)
  {
    hide Wanted, Answering, NoDup;
    NotYet(hosts, i);
  }

  lemma {:induction false} OneMoreHost(qs: Questions, host: Name, more: Questions)
    requires IsDict(qs) && host !in qs.jobs && more.order == qs.order + [host] && more.jobs.Keys == qs.jobs.Keys + {host}
    ensures IsDict(more)
  {
    assert forall h :: h in qs.order ==> h in Elems(qs.order);
  }

  method Everyone(rest: seq<Id>, latest: map<Name, Asked>, index: map<Id, Option<Name>>, hosts: seq<Name>) returns (qs: Questions)
    requires NoDup(hosts) && forall j :: j in rest ==> j in index
    ensures IsDict(qs) && AskedOf(qs, |hosts|, rest, latest, index, hosts)
  {
    qs := Questions([], map[]);
    assert IsDict(qs);
    hide Wanted, NoDup;
    for i := 0 to |hosts|
      invariant IsDict(qs) && AskedOf(qs, i, rest, latest, index, hosts)
    {
      ghost var before := qs;
      if Answering(latest, hosts[i]) {
        var wanted := Wanted(hosts[i], rest, index, hosts);
        if wanted != [] {
          qs := Questions(qs.order + [hosts[i]], qs.jobs[hosts[i] := wanted]);
        }
      }
      AskedNext(before, qs, i, rest, latest, index, hosts);
      if qs != before {
        OneMoreHost(before, hosts[i], qs);
      }
      hide AskedOf, IsDict;
    }
  }

  lemma {:induction false} PutIs(qs: Questions, answers: Name -> Asked)
    requires IsDict(qs)
    ensures OnceEach(Put(qs, answers))
    ensures AnsweredBy(Put(qs, answers), answers)
    ensures forall q :: q in Put(qs, answers) ==> q.host in qs.jobs && q.jobs == qs.jobs[q.host]
    ensures forall h :: h in qs.jobs ==> Question(h, qs.jobs[h], answers(h)) in Put(qs, answers)
  {
    var log := Put(qs, answers);
    assert forall i :: 0 <= i < |log| ==> log[i].host in Elems(qs.order);
    forall h | h in qs.jobs
      ensures Question(h, qs.jobs[h], answers(h)) in log
    {
      assert h in Elems(qs.order);
      var i :| 0 <= i < |qs.order| && qs.order[i] == h;
      assert log[i] in log;
    }
  }

  lemma {:induction false} NamedIsFirstRound(qs: Questions, answers: Name -> Asked, ids: seq<Id>, index: map<Id, Option<Name>>, hosts: seq<Name>)
    requires IsDict(qs) && Elems(ids) == index.Keys
    requires forall j :: j in ids ==> j in index
    requires NamedFor(qs, ids, |ids|, index, hosts)
    ensures FirstRound(Put(qs, answers), index, hosts) && AnsweredBy(Put(qs, answers), answers)
  {
    PutIs(qs, answers);
    var log := Put(qs, answers);
    hide OnceEach, IsDict, Put;
    forall j | j in index && Entry(index[j], hosts).Some?
      ensures exists q :: q in log && q.host == Entry(index[j], hosts).value && j in q.jobs
    {
      assert j in Elems(ids);
      var h := Entry(index[j], hosts).value;
      assert Question(h, qs.jobs[h], answers(h)) in log;
    }
  }

  lemma {:induction false} EveryoneIsSecondRound(qs: Questions, answers: Name -> Asked, before: seq<Question>, rest: seq<Id>, latest: map<Name, Asked>, index: map<Id, Option<Name>>, hosts: seq<Name>)
    requires IsDict(qs) && (forall j :: j in rest ==> j in index) && AskedOf(qs, |hosts|, rest, latest, index, hosts)
    requires forall j :: j in rest <==> j in index && FoundBy(before, j).None?
    requires forall h :: LastAsked(before, h) == if h in latest then Some(latest[h]) else None
    ensures SecondRound(Put(qs, answers), before, index, hosts) && AnsweredBy(Put(qs, answers), answers)
  {
    PutIs(qs, answers);
    var log := Put(qs, answers);
    hide OnceEach, IsDict, Put, FoundBy, LastAsked, Wanted;
    forall q | q in log
      ensures q.host in hosts && Answering(latest, q.host)
    {
      assert q.host in hosts[..|hosts|];
    }
    forall h, j | h in hosts && j in index && Wants(h, j, before, index, hosts) && Answering(latest, h)
      ensures exists q :: q in log && q.host == h && j in q.jobs
    {
      assert j in Wanted(h, rest, index, hosts);
      assert Question(h, qs.jobs[h], answers(h)) in log;
    }
  }

  /** `[job for job in ids if job not in found]` */
  function NotFound(ids: seq<Id>, found: set<Id>): (r: seq<Id>)
    ensures forall j :: j in r <==> j in ids && j !in found
  {
    Without(ids, found)
  }

  /** `_ask_around`: every id is placed, as the verdict on the two rounds of
      questions has it; no host is asked more than once in either; and no job
      is called missing unless every registered host is ruled out for it. */
  method AskAround(ids: seq<Id>, index: map<Id, Option<Name>>, hosts: seq<Name>, round1: Name -> Asked, round2: Name -> Asked)
    returns (placed: map<Id, Placed>, ghost a: seq<Question>, ghost b: seq<Question>)
    requires NoDup(hosts) && Elems(ids) == index.Keys && forall j :: j in ids ==> j in index
    ensures placed.Keys == index.Keys
    ensures FirstRound(a, index, hosts) && SecondRound(b, a, index, hosts) && OnceEach(a) && OnceEach(b)
    ensures AnsweredBy(a, round1) && AnsweredBy(b, round2)
    ensures forall j :: j in index ==> PlacedBy(a, b, j, index[j], Entry(index[j], hosts), placed[j])
    ensures forall j :: j in index && placed[j] == Unlocated(true) ==>
      (forall h :: h in hosts ==> RuledOut(a + b, h, j)) && (index[j].Some? ==> index[j].value in hosts)
  {
    hide FoundBy, LastAsked, FirstAsked, Wanted, IsDict, Put, NamedFor, AskedOf, FirstRound, SecondRound, AnsweredBy, NoDup, RuledOut;
    var survey := new Survey();
    var named := ByNamed(ids, index, hosts);
    survey.AskEach(named, round1);
    a := survey.log;
    assert a == Put(named, round1);
    NamedIsFirstRound(named, round1, ids, index, hosts);
    var rest := NotFound(ids, survey.found.Keys);
    assert forall j :: j in index <==> j in Elems(ids);
    var everyone := Everyone(rest, survey.latest, index, hosts);
    EveryoneIsSecondRound(everyone, round2, a, rest, survey.latest, index, hosts);
    survey.AskEach(everyone, round2);
    b := Put(everyone, round2);
    RoundsAskOnce(a, b, index, hosts);
    placed := PlaceAll(survey, ids, index, hosts);
    forall j | j in index
      ensures PlacedBy(a, b, j, index[j], Entry(index[j], hosts), placed[j])
      ensures placed[j] == Unlocated(true) ==>
        (forall h :: h in hosts ==> RuledOut(a + b, h, j)) && (index[j].Some? ==> index[j].value in hosts)
    {
      MissingIsExact(a, b, index, hosts, j);
      PlacedExactly(a, b, index, hosts, j);
    }
  }

  lemma {:induction false} RoundsAskOnce(a: seq<Question>, b: seq<Question>, index: map<Id, Option<Name>>, hosts: seq<Name>)
    requires FirstRound(a, index, hosts) && SecondRound(b, a, index, hosts)
    ensures OnceEach(a) && OnceEach(b)
  {
  }

  /** The last loop of `_ask_around`. */
  method PlaceAll(survey: Survey, ids: seq<Id>, index: map<Id, Option<Name>>, hosts: seq<Name>) returns (placed: map<Id, Placed>)
    requires survey.Valid() && Elems(ids) == index.Keys && forall j :: j in ids ==> j in index
    ensures placed.Keys == index.Keys
    ensures forall j :: j in index ==> placed[j] == Verdict(survey.log, j, index[j], Entry(index[j], hosts))
  {
    hide FoundBy, LastAsked, FirstAsked;
    placed := map[];
    for i := 0 to |ids|
      invariant placed.Keys == Elems(ids[..i])
      invariant forall j :: j in placed ==> j in index && placed[j] == Verdict(survey.log, j, index[j], Entry(index[j], hosts))
    {
      var job := ids[i];
      assert job in ids;
      var entry := Entry(index[job], hosts);
      var place := Place(survey, job, index[job], entry);
      placed := placed[job := place];
      assert ids[..i + 1] == ids[..i] + [job];
    }
    assert ids[..|ids|] == ids;
  }

  method Place(survey: Survey, job: Id, indexed: Option<Name>, entry: Option<Name>) returns (place: Placed)
    requires survey.Valid() && (entry.Some? ==> indexed == entry)
    ensures place == Verdict(survey.log, job, indexed, entry)
  {
    hide FoundBy, LastAsked, FirstAsked;
    if job in survey.found {
      return Location(survey.found[job].0, true, Some(survey.found[job].1));
    }
    if entry.Some? && entry.value in survey.first && !survey.first[entry.value].Answered? {
      return Location(entry.value, true, Some(survey.first[entry.value]));
    }
    var unasked := exists h :: h in survey.latest && survey.latest[h].Unaskable? && Some(h) != entry;
    assert unasked <==> SomeUnasked(survey.log, entry) by {
      forall h
        ensures LastAsked(survey.log, h) == Some(Unaskable) <==> h in survey.latest && survey.latest[h].Unaskable?
      {
      }
    }
    if indexed.Some? && entry.None? && !unasked {
      return Location(indexed.value, false, Some(Gone));
    }
    return Unlocated(!unasked);
  }

  // Before anybody is asked.

  /** `local.get(job) or index.get(job)` */
  function Indexed(job: Id, local: map<Id, Name>, mirror: map<Id, Name>): Option<Name> {
    if job in local then Some(local[job]) else if job in mirror then Some(mirror[job]) else None
  }

  /** A job placed from the index alone: on a registered host the local index
      names, or on a known one whose entry cannot be read. */
  function FromIndex(job: Id, local: map<Id, Name>, mirror: map<Id, Name>, hosts: seq<Name>, skipped: set<Name>): Option<Placed> {
    var indexed := Indexed(job, local, mirror);
    if job in local && local[job] in hosts then Some(Location(local[job], true, None))
    else if indexed.Some? && indexed.value !in hosts && indexed.value in skipped then
      Some(Location(indexed.value, false, Some(Unaskable)))
    else None
  }

  /** The local index names this host for the job, or the mirror's does where the
      local one has nothing. */
  predicate IndexNames(job: Id, local: map<Id, Name>, mirror: map<Id, Name>, host: Name) {
    (job in local && local[job] == host) || (job !in local && job in mirror && mirror[job] == host)
  }

  /** A job is placed from the index on the registered host the local one names,
      or on a host named that is not registered and whose entry cannot be read;
      every other is to be asked about, and with the host named, if any. */
  lemma {:induction false} PlacedFromTheIndex(ids: seq<Id>, local: map<Id, Name>, mirror: map<Id, Name>, hosts: seq<Name>, skipped: set<Name>, job: Id, host: Name)
    ensures job in local && local[job] == host && host in hosts ==>
      FromIndex(job, local, mirror, hosts, skipped) == Some(Location(host, true, None))
    ensures IndexNames(job, local, mirror, host) && host !in hosts && host in skipped ==>
      FromIndex(job, local, mirror, hosts, skipped) == Some(Location(host, false, Some(Unaskable)))
    ensures IndexNames(job, local, mirror, host) && job in ids && (if host in hosts then job !in local else host !in skipped) ==>
      job in Unplaced(ids, local, mirror, hosts, skipped) && Unplaced(ids, local, mirror, hosts, skipped)[job] == Some(host)
    ensures job !in local && job !in mirror && job in ids ==>
      job in Unplaced(ids, local, mirror, hosts, skipped) && Unplaced(ids, local, mirror, hosts, skipped)[job] == None
    ensures job in Unplaced(ids, local, mirror, hosts, skipped) ==> job in ids && FromIndex(job, local, mirror, hosts, skipped).None?
  {
  }

  /** The ids somebody has to be asked about, with the host the index names. */
  function Unplaced(ids: seq<Id>, local: map<Id, Name>, mirror: map<Id, Name>, hosts: seq<Name>, skipped: set<Name>): map<Id, Option<Name>> {
    map j | j in ids && FromIndex(j, local, mirror, hosts, skipped).None? :: Indexed(j, local, mirror)
  }

  /** `locate_many` without `--host`: an id the index places is placed there and
      nobody is asked about it; every other is placed as the verdict on the two
      rounds of questions has it, and is called missing only if every registered
      host is ruled out for it and the index names no unregistered one. */
  method LocateMany(jobIds: seq<Id>, local: map<Id, Name>, mirror: map<Id, Name>, hosts: seq<Name>, skipped: set<Name>,
                    round1: Name -> Asked, round2: Name -> Asked)
    returns (placed: map<Id, Placed>, ghost a: seq<Question>, ghost b: seq<Question>)
    requires NoDup(hosts)
    ensures placed.Keys == Elems(jobIds)
    ensures var index := Unplaced(jobIds, local, mirror, hosts, skipped);
            && FirstRound(a, index, hosts) && SecondRound(b, a, index, hosts) && AnsweredBy(a, round1) && AnsweredBy(b, round2)
            && (forall j :: j in index ==> PlacedBy(a, b, j, index[j], Entry(index[j], hosts), placed[j]))
    ensures forall j :: j in placed && FromIndex(j, local, mirror, hosts, skipped).Some? ==>
      placed[j] == FromIndex(j, local, mirror, hosts, skipped).value
    ensures forall j :: j in placed && placed[j] == Unlocated(true) ==>
      && (forall h :: h in hosts ==> RuledOut(a + b, h, j))
      && (Indexed(j, local, mirror).Some? ==> Indexed(j, local, mirror).value in hosts)
  {
    hide NoDup, RuledOut, FromIndex, Indexed, Unplaced, PlacedBy, AnsweredBy, FirstRound, SecondRound;
    ghost var index := Unplaced(jobIds, local, mirror, hosts, skipped);
    UnplacedIs(jobIds, local, mirror, hosts, skipped);
    var order, unplaced;
    placed, order, unplaced := FromIndices(jobIds, local, mirror, hosts, skipped);
    if order == [] {
      a, b := [], [];
      assert unplaced.Keys == {};
      NobodyAsked(unplaced, hosts, round1, round2);
    } else {
      var asked;
      asked, a, b := AskAround(order, unplaced, hosts, round1, round2);
      placed := placed + asked;
    }
  }

  lemma {:induction false} NobodyAsked(index: map<Id, Option<Name>>, hosts: seq<Name>, round1: Name -> Asked, round2: Name -> Asked)
    requires index.Keys == {}
    ensures FirstRound([], index, hosts) && SecondRound([], [], index, hosts) && AnsweredBy([], round1) && AnsweredBy([], round2)
  {
  }

  lemma {:induction false} UnplacedIs(ids: seq<Id>, local: map<Id, Name>, mirror: map<Id, Name>, hosts: seq<Name>, skipped: set<Name>)
    ensures var index := Unplaced(ids, local, mirror, hosts, skipped);
            && (forall j :: j in index <==> j in ids && FromIndex(j, local, mirror, hosts, skipped).None?)
            && (forall j :: j in index ==> index[j] == Indexed(j, local, mirror))
    ensures forall j :: FromIndex(j, local, mirror, hosts, skipped).Some? ==> FromIndex(j, local, mirror, hosts, skipped).value.Location?
  {
  }

  /** The first loop of `locate_many`. */
  method FromIndices(jobIds: seq<Id>, local: map<Id, Name>, mirror: map<Id, Name>, hosts: seq<Name>, skipped: set<Name>)
    returns (placed: map<Id, Placed>, order: seq<Id>, unplaced: map<Id, Option<Name>>)
    ensures placed.Keys + unplaced.Keys == Elems(jobIds) && placed.Keys !! unplaced.Keys
    ensures Elems(order) == unplaced.Keys && forall j :: j in order ==> j in unplaced
    ensures forall j :: j in placed ==> FromIndex(j, local, mirror, hosts, skipped) == Some(placed[j])
    ensures unplaced == Unplaced(jobIds, local, mirror, hosts, skipped)
  {
    placed, order, unplaced := map[], [], map[];
    assert unplaced == Unplaced([], local, mirror, hosts, skipped);
    hide FromIndex, Indexed, Unplaced;
    for i := 0 to |jobIds|
      invariant forall j :: j in placed <==> j in jobIds[..i] && FromIndex(j, local, mirror, hosts, skipped).Some?
      invariant forall j :: j in placed ==> FromIndex(j, local, mirror, hosts, skipped) == Some(placed[j])
      invariant unplaced == Unplaced(jobIds[..i], local, mirror, hosts, skipped)
      invariant forall j :: j in order <==> j in unplaced
    {
      var job := jobIds[i];
      assert jobIds[..i + 1] == jobIds[..i] + [job];
      UnplacedMore(jobIds[..i], job, local, mirror, hosts, skipped);
      var known := FromIndex(job, local, mirror, hosts, skipped);
      if known.Some? {
        placed := placed[job := known.value];
      } else {
        if job !in unplaced {
          order := order + [job];
        }
        unplaced := unplaced[job := Indexed(job, local, mirror)];
      }
    }
    assert jobIds[..|jobIds|] == jobIds;
    UnplacedIs(jobIds, local, mirror, hosts, skipped);
  }

  lemma {:induction false} UnplacedMore(ids: seq<Id>, job: Id, local: map<Id, Name>, mirror: map<Id, Name>, hosts: seq<Name>, skipped: set<Name>)
    ensures Unplaced(ids + [job], local, mirror, hosts, skipped)
         == if FromIndex(job, local, mirror, hosts, skipped).Some? then Unplaced(ids, local, mirror, hosts, skipped)
            else Unplaced(ids, local, mirror, hosts, skipped)[job := Indexed(job, local, mirror)]
  {
    hide FromIndex, Indexed;
    assert forall j :: j in ids + [job] <==> j in ids || j == job;
  }
}
