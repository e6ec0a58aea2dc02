/** Naming cards by nvidia-smi index or UUID (`resolve` in gpuc/host/gpus.py). */
module Resolve {
  import opened Lists

  /** One row of nvidia-smi's table. */
  datatype Gpu = Gpu(index: Option<int>, uuid: string)

  datatype Resolution = Resolution(
    owned: seq<string>, shared: seq<string>,
    missing: seq<string>, sharedMissing: seq<string>, duplicates: seq<string>)

  // Indices as they are spelled.

  predicate IsDigit(c: char) {
    '0' <= c <= '9'
  }

  /** `entry.isdigit()` */
  predicate AllDigits(s: string) {
    s != "" && forall i :: 0 <= i < |s| ==> IsDigit(s[i])
  }

  function Digit(n: nat): (c: char)
    requires n < 10
    ensures IsDigit(c) && c as int == '0' as int + n
  {
    ('0' as int + n) as char
  }

  /** `str(n)` */
  function Spelled(n: int): string
    decreases if n < 0 then 1 - n else n
  {
    if n < 0 then "-" + Spelled(-n)
    else if n < 10 then [Digit(n)]
    else Spelled(n / 10) + [Digit(n % 10)]
  }

  function Read(s: string): nat
    requires forall i :: 0 <= i < |s| ==> IsDigit(s[i])
  {
    if s == "" then 0
    else
      assert IsDigit(s[|s| - 1]);
      10 * Read(s[..|s| - 1]) + (s[|s| - 1] as int - '0' as int)
  }

  lemma {:induction false} SpelledReadsBack(n: nat)
    ensures AllDigits(Spelled(n)) && Read(Spelled(n)) == n
  {
    if n >= 10 {
      SpelledReadsBack(n / 10);
      var s := Spelled(n);
      assert s[..|s| - 1] == Spelled(n / 10);
    } else {
      assert Spelled(n)[..0] == "";
    }
  }

  // What an entry names.

  /** `{str(gpu.index): gpu.uuid for gpu in table if gpu.index is not None}`: of
      two rows with one index, the later. */
  function ByIndex(table: seq<Gpu>): map<string, string> {
    if table == [] then map[]
    else
      var before, row := ByIndex(table[..|table| - 1]), table[|table| - 1];
      if row.index.Some? then before[Spelled(row.index.value) := row.uuid] else before
  }

  predicate Present(table: seq<Gpu>, uuid: string) {
    exists i :: 0 <= i < |table| && table[i].uuid == uuid
  }

  function Lookup(table: seq<Gpu>, entry: string): Option<string> {
    if AllDigits(entry) then
      if entry in ByIndex(table) then Some(ByIndex(table)[entry]) else None
    else if Present(table, entry) then Some(entry) else None
  }

  lemma {:induction false} ByIndexIsPresent(table: seq<Gpu>, entry: string)
    ensures entry in ByIndex(table) ==> Present(table, ByIndex(table)[entry])
  {
    if table != [] {
      ByIndexIsPresent(table[..|table| - 1], entry);
      assert table[|table| - 1].uuid == table[|table| - 1].uuid;
    }
  }

  /** Nothing is handed out that the driver does not report. */
  lemma {:induction false} LookupIsPresent(table: seq<Gpu>, entry: string)
    ensures Lookup(table, entry).Some? ==> Present(table, Lookup(table, entry).value)
  {
    ByIndexIsPresent(table, entry);
  }

  /** With every index once, the spelling of a card's index names that card. */
  lemma {:induction false} IndexNamesItsCard(table: seq<Gpu>, i: nat)
    requires i < |table| && table[i].index.Some? && table[i].index.value >= 0
    requires forall j :: i < j < |table| ==> table[j].index != table[i].index
    ensures Lookup(table, Spelled(table[i].index.value)) == Some(table[i].uuid)
  {
    SpelledReadsBack(table[i].index.value);
    LastRowWins(table, i, |table|);
    assert table[..|table|] == table;
  }

  lemma {:induction false} LastRowWins(table: seq<Gpu>, i: nat, k: nat)
    requires i < k <= |table| && table[i].index.Some? && table[i].index.value >= 0
    requires forall j :: i < j < k ==> table[j].index != table[i].index
    ensures var s := Spelled(table[i].index.value); s in ByIndex(table[..k]) && ByIndex(table[..k])[s] == table[i].uuid
    decreases k
  {
    assert table[..k][..k - 1] == table[..k - 1];
    if i < k - 1 {
      LastRowWins(table, i, k - 1);
      if table[k - 1].index.Some? {
        SpelledApart(table[k - 1].index.value, table[i].index.value);
      }
    }
  }

  lemma {:induction false} SpelledApart(m: int, n: nat)
    requires m != n
    ensures Spelled(m) != Spelled(n)
  {
    SpelledReadsBack(n);
    if m >= 0 {
      SpelledReadsBack(m);
    } else {
      assert Spelled(m)[0] == '-';
      assert !IsDigit('-');
    }
  }

  // Going through a list of entries.

  /** The cards named so far, the entries that named them, those that name no
      card, and those that name one already named. */
  datatype Tally = Tally(uuids: seq<string>, firsts: seq<string>, missing: seq<string>, again: seq<string>)

  function Counted(t: Tally, table: seq<Gpu>, claimed: seq<string>, entry: string): Tally {
    var uuid := Lookup(table, entry);
    if uuid.None? then t.(missing := t.missing + [entry])
    else if uuid.value in claimed || uuid.value in t.uuids then t.(again := t.again + [entry])
    else t.(uuids := t.uuids + [uuid.value], firsts := t.firsts + [entry])
  }

  function Tallied(entries: seq<string>, table: seq<Gpu>, claimed: seq<string>): Tally {
    if entries == [] then Tally([], [], [], [])
    else Counted(Tallied(entries[..|entries| - 1], table, claimed), table, claimed, entries[|entries| - 1])
  }

  /** Some entry names this card. */
  predicate NamedBy(table: seq<Gpu>, entries: seq<string>, uuid: string) {
    exists e :: e in entries && Lookup(table, e) == Some(uuid)
  }

  lemma {:induction false} NamedByMore(table: seq<Gpu>, entries: seq<string>, entry: string, uuid: string)
    ensures NamedBy(table, entries + [entry], uuid) <==> NamedBy(table, entries, uuid) || Lookup(table, entry) == Some(uuid)
  {
    hide Lookup;
    assert entry in entries + [entry];
    assert forall e :: e in entries + [entry] <==> e in entries || e == entry;
  }

  /** Every card once and none already claimed, and exactly the cards the
      entries name. */
  lemma {:induction false} TallyNames(entries: seq<string>, table: seq<Gpu>, claimed: seq<string>)
    ensures var t := Tallied(entries, table, claimed);
            && NoDup(t.uuids) && Apart(t.uuids, claimed)
            && (forall u :: u in t.uuids <==> u !in claimed && NamedBy(table, entries, u))
  {
    hide Lookup, NamedBy;
    if entries == [] {
      NobodyNamed(table);
    } else {
      var before, entry := entries[..|entries| - 1], entries[|entries| - 1];
      assert entries == before + [entry];
      TallyNames(before, table, claimed);
      forall u
        ensures NamedBy(table, entries, u) <==> NamedBy(table, before, u) || Lookup(table, entry) == Some(u)
      {
        NamedByMore(table, before, entry, u);
      }
    }
  }

  lemma {:induction false} NobodyNamed(table: seq<Gpu>)
    ensures forall u :: !NamedBy(table, [], u)
  {
  }

  lemma {:induction false} CountedAdds(t: Tally, table: seq<Gpu>, claimed: seq<string>, entry: string)
    ensures var u := Counted(t, table, claimed, entry);
            multiset(u.firsts) + multiset(u.missing) + multiset(u.again)
            == multiset(t.firsts) + multiset(t.missing) + multiset(t.again) + multiset{entry}
  {
    hide Lookup;
  }

  lemma {:induction false} CountedNames(t: Tally, table: seq<Gpu>, claimed: seq<string>, entry: string)
    requires Names(table, t.firsts, t.uuids)
    ensures var u := Counted(t, table, claimed, entry);
            && Names(table, u.firsts, u.uuids)
            && (forall e :: e in u.missing <==> e in t.missing || (e == entry && Lookup(table, e).None?))
  {
    hide Lookup;
  }

  /** Every entry is in exactly one of the three lists. */
  lemma {:induction false} TallyCounts(entries: seq<string>, table: seq<Gpu>, claimed: seq<string>)
    ensures var t := Tallied(entries, table, claimed);
            && multiset(t.firsts) + multiset(t.missing) + multiset(t.again) == multiset(entries)
            && Names(table, t.firsts, t.uuids)
            && (forall e :: e in t.missing <==> e in entries && Lookup(table, e).None?)
  {
    hide Lookup, Counted, Names;
    if entries == [] {
      NamesNothing(table);
    } else {
      var before, entry := entries[..|entries| - 1], entries[|entries| - 1];
      assert entries == before + [entry];
      TallyCounts(before, table, claimed);
      CountedAdds(Tallied(before, table, claimed), table, claimed, entry);
      CountedNames(Tallied(before, table, claimed), table, claimed, entry);
    }
  }

  lemma {:induction false} NamesNothing(table: seq<Gpu>)
    ensures Names(table, [], [])
  {
  }

  /** The result in terms of the two lists. */
  function Resolved(owned: seq<string>, table: seq<Gpu>, shared: seq<string>): Resolution {
    var mine := Tallied(owned, table, []);
    var theirs := Tallied(shared, table, mine.uuids);
    Resolution(mine.uuids, theirs.uuids, mine.missing, theirs.missing, mine.again + theirs.again)
  }

  /** The cards of the table that no shared entry names, in its order. */
  function Unnamed(table: seq<Gpu>, rows: seq<Gpu>, shared: seq<string>): (r: seq<string>)
  {
    if rows == [] then []
    else Unnamed(table, rows[..|rows| - 1], shared)
         + if NamedBy(table, shared, rows[|rows| - 1].uuid) then [] else [rows[|rows| - 1].uuid]
  }

  function Owned(owned: Option<seq<string>>, table: seq<Gpu>, shared: seq<string>): seq<string> {
    if owned.Some? then owned.value else Unnamed(table, table, shared)
  }

  /** The two lists are duplicate-free and disjoint and of present cards only,
      and every entry is counted once: as naming a card, missing, or again. */
  lemma {:induction false} ResolvedIsCanonical(owned: seq<string>, table: seq<Gpu>, shared: seq<string>)
    ensures var r := Resolved(owned, table, shared);
            && NoDup(r.owned) && NoDup(r.shared) && Apart(r.owned, r.shared)
            && (forall u :: u in r.owned + r.shared ==> Present(table, u))
            && (forall u :: u in r.owned <==> NamedBy(table, owned, u))
            && (forall u :: u in r.shared <==> u !in r.owned && NamedBy(table, shared, u))
            && (forall e :: e in r.missing <==> e in owned && Lookup(table, e).None?)
            && (forall e :: e in r.sharedMissing <==> e in shared && Lookup(table, e).None?)
            && exists firsts, sharedFirsts :: Names(table, firsts, r.owned) && Names(table, sharedFirsts, r.shared)
                 && multiset(firsts) + multiset(sharedFirsts) + multiset(r.missing) + multiset(r.sharedMissing) + multiset(r.duplicates)
                    == multiset(owned) + multiset(shared)
  {
    hide Lookup, Tallied;
    var r := Resolved(owned, table, shared);
    var mine := Tallied(owned, table, []);
    var theirs := Tallied(shared, table, mine.uuids);
    TallyNames(owned, table, []);
    TallyNames(shared, table, mine.uuids);
    TallyCounts(owned, table, []);
    TallyCounts(shared, table, mine.uuids);
    ApartBoth(r.shared, r.owned);
    forall u | u in r.owned + r.shared
      ensures Present(table, u)
    {
      var e :| (e in owned || e in shared) && Lookup(table, e) == Some(u);
      LookupIsPresent(table, e);
    }
  }

  predicate Names(table: seq<Gpu>, entries: seq<string>, uuids: seq<string>) {
    |entries| == |uuids| && forall i :: 0 <= i < |entries| ==> Lookup(table, entries[i]) == Some(uuids[i])
  }

  // Resolving again.

  /** A card whose UUID is not taken for an index, or is its own card's. */
  predicate NamesItself(table: seq<Gpu>, uuid: string) {
    AllDigits(uuid) ==> uuid in ByIndex(table) && ByIndex(table)[uuid] == uuid
  }

  lemma {:induction false} LooksUpItself(table: seq<Gpu>, uuid: string)
    requires Present(table, uuid)
    ensures NamesItself(table, uuid) <==> Lookup(table, uuid) == Some(uuid)
  {
  }

  /** Distinct unclaimed cards, each its own entry. */
  predicate Themselves(uuids: seq<string>, table: seq<Gpu>, claimed: seq<string>) {
    NoDup(uuids) && Apart(uuids, claimed) && forall u :: u in uuids ==> Lookup(table, u) == Some(u)
  }

  lemma {:induction false} ThemselvesMore(before: seq<string>, last: string, table: seq<Gpu>, claimed: seq<string>)
    ensures Themselves(before + [last], table, claimed) <==>
      Themselves(before, table, claimed) && last !in before && last !in claimed && Lookup(table, last) == Some(last)
  {
    hide Lookup;
    var all := before + [last];
    if Themselves(all, table, claimed) {
      forall i, j | 0 <= i < j < |before|
        ensures before[i] != before[j]
      {
        assert all[i] != all[j];
      }
      forall i | 0 <= i < |before|
        ensures before[i] != last
      {
        assert all[i] != all[|before|];
      }
      assert last in all && forall u :: u in before ==> u in all;
    }
  }

  /** Entries that are their own distinct cards come back as they are, and no
      others do. */
  lemma {:induction false} TallySame(uuids: seq<string>, table: seq<Gpu>, claimed: seq<string>)
    ensures var t := Tallied(uuids, table, claimed);
            && (t.uuids == uuids <==> Themselves(uuids, table, claimed))
            && |t.uuids| <= |uuids|
            && (t.uuids == uuids ==> t.missing == [] && t.again == [])
  {
    hide Lookup, Themselves;
    if uuids == [] {
      NobodyElse(table, claimed);
    } else {
      var before, last := uuids[..|uuids| - 1], uuids[|uuids| - 1];
      assert uuids == before + [last];
      TallySame(before, table, claimed);
      ThemselvesMore(before, last, table, claimed);
      CountedSame(Tallied(before, table, claimed), table, claimed, before, last);
    }
  }

  lemma {:induction false} NobodyElse(table: seq<Gpu>, claimed: seq<string>)
    ensures Themselves([], table, claimed)
  {
  }

  lemma {:induction false} CountedSame(t: Tally, table: seq<Gpu>, claimed: seq<string>, before: seq<string>, last: string)
    requires |t.uuids| <= |before|
    ensures var u := Counted(t, table, claimed, last);
            && |u.uuids| <= |before| + 1
            && (u.uuids == before + [last] <==>
                 t.uuids == before && last !in before && last !in claimed && Lookup(table, last) == Some(last))
            && (u.uuids == before + [last] ==> u.missing == t.missing && u.again == t.again)
  {
    hide Lookup;
    var u := Counted(t, table, claimed, last);
    if u.uuids == before + [last] {
      assert |u.uuids| == |before| + 1;
      assert u.uuids[..|before|] == before && u.uuids[|before|] == last;
      assert u.uuids[..|t.uuids|] == t.uuids;
    }
  }

  /** Resolving the result again returns it, with nothing missing or
      duplicated, exactly when no card in it has a UUID that reads as another
      card's index, or as no card's. */
  lemma {:induction false} ResolvesToItself(owned: seq<string>, table: seq<Gpu>, shared: seq<string>)
    ensures var r := Resolved(owned, table, shared);
            Resolved(r.owned, table, r.shared) == Resolution(r.owned, r.shared, [], [], []) <==>
            forall u :: u in r.owned + r.shared ==> NamesItself(table, u)
  {
    var r := Resolved(owned, table, shared);
    ResolvedIsCanonical(owned, table, shared);
    forall u | u in r.owned + r.shared
      ensures NamesItself(table, u) <==> Lookup(table, u) == Some(u)
    {
      LooksUpItself(table, u);
    }
    hide Lookup, NamesItself, Tallied;
    ApartBoth(r.owned, r.shared);
    TallySame(r.owned, table, []);
    TallySame(r.shared, table, r.owned);
    assert Apart(r.owned, []) by {
      NothingApart(r.owned);
    }
  }

  lemma {:induction false} NothingApart(s: seq<string>)
    ensures Apart(s, [])
  {
  }

  /** A driver that reported a card under an all-digit UUID would break it. */
  lemma {:induction false} DigitUuidIsLost()
    ensures var table := [Gpu(Some(0), "7")];
            Resolved(["0"], table, []) == Resolution(["7"], [], [], [], [])
            && Resolved(["7"], table, []) == Resolution([], [], ["7"], [], [])
  {
    var table := [Gpu(Some(0), "7")];
    assert table[..0] == [];
    assert Spelled(0) == "0";
    assert ByIndex(table) == map["0" := "7"];
    assert AllDigits("0") && AllDigits("7");
    assert Lookup(table, "0") == Some("7") && Lookup(table, "7") == None;
    hide Lookup;
    assert ["0"][..0] == [] && ["7"][..0] == [];
    assert Tallied(["0"], table, []) == Counted(Tallied([], table, []), table, [], "0");
    assert Tallied(["7"], table, []) == Counted(Tallied([], table, []), table, [], "7");
  }

  // Owning whatever is not shared.

  lemma {:induction false} UnnamedIs(table: seq<Gpu>, rows: seq<Gpu>, shared: seq<string>, uuid: string)
    ensures uuid in Unnamed(table, rows, shared) <==> Present(rows, uuid) && !NamedBy(table, shared, uuid)
  {
    hide NamedBy;
    if rows != [] {
      var before, row := rows[..|rows| - 1], rows[|rows| - 1];
      UnnamedIs(table, before, shared, uuid);
      assert rows == before + [row];
      if Present(before, uuid) {
        var i :| 0 <= i < |before| && before[i].uuid == uuid;
        assert rows[i].uuid == uuid;
      }
      assert rows[|rows| - 1].uuid == row.uuid;
    }
  }

  /** They come in the order of the table: those of its first rows first. */
  lemma {:induction false} UnnamedInOrder(table: seq<Gpu>, first: seq<Gpu>, rest: seq<Gpu>, shared: seq<string>)
    ensures Unnamed(table, first + rest, shared) == Unnamed(table, first, shared) + Unnamed(table, rest, shared)
    decreases |rest|
  {
    hide NamedBy;
    if rest == [] {
      assert first + rest == first;
    } else {
      var before := rest[..|rest| - 1];
      assert (first + rest)[..|first + rest| - 1] == first + before;
      UnnamedInOrder(table, first, before, shared);
    }
  }

  /** With no owned list, the host owns the unshared cards, each in its place,
      exactly when the table lists each of them once and each names itself. */
  lemma {:induction false} OwnsTheRest(table: seq<Gpu>, shared: seq<string>)
    ensures var rest := Unnamed(table, table, shared);
            Resolved(rest, table, shared).owned == rest <==>
            NoDup(rest) && forall u :: u in rest ==> NamesItself(table, u)
  {
    var rest := Unnamed(table, table, shared);
    forall u | u in rest
      ensures NamesItself(table, u) <==> Lookup(table, u) == Some(u)
    {
      UnnamedIs(table, table, shared, u);
      LooksUpItself(table, u);
    }
    hide Lookup, NamesItself, Tallied, NoDup, Unnamed;
    TallySame(rest, table, []);
    NothingApart(rest);
  }

  /** The spelling of this card's index, among those handed on, names it. */
  predicate Reached(table: seq<Gpu>, uuids: seq<string>, uuid: string) {
    exists v :: v in uuids && AllDigits(v) && v in ByIndex(table) && ByIndex(table)[v] == uuid
  }

  /** Every card handed on whose UUID reads as an index is named by another such
      UUID, if not by its own. */
  predicate AllReached(table: seq<Gpu>, uuids: seq<string>) {
    forall u :: u in uuids && AllDigits(u) ==> Reached(table, uuids, u)
  }

  lemma {:induction false} ReachedIsNamed(table: seq<Gpu>, uuids: seq<string>, uuid: string)
    requires Present(table, uuid) && uuid in uuids
    ensures NamedBy(table, uuids, uuid) <==> !AllDigits(uuid) || Reached(table, uuids, uuid)
  {
    if NamedBy(table, uuids, uuid) {
      var e :| e in uuids && Lookup(table, e) == Some(uuid);
    }
    if !AllDigits(uuid) {
      assert Lookup(table, uuid) == Some(uuid);
    } else if Reached(table, uuids, uuid) {
      var v :| v in uuids && AllDigits(v) && v in ByIndex(table) && ByIndex(table)[v] == uuid;
      assert Lookup(table, v) == Some(uuid);
    }
    hide Lookup, AllDigits;
  }

  /** With no owned list, owned and shared together are exactly the table, and
      every unshared card is owned, exactly when the UUIDs that read as indices
      name those same cards between them. */
  lemma {:induction false} OwnedAndSharedAreTheTable(table: seq<Gpu>, shared: seq<string>)
    ensures var rest := Unnamed(table, table, shared);
            var r := Resolved(rest, table, shared);
            && ((forall u :: u in rest ==> u in r.owned) <==> AllReached(table, rest))
            && ((forall u :: u in r.owned + r.shared <==> Present(table, u)) <==> AllReached(table, rest))
  {
    hide AllDigits, Reached, Tallied, Unnamed, NamedBy, Lookup;
    var rest := Unnamed(table, table, shared);
    var r := Resolved(rest, table, shared);
    ResolvedIsCanonical(rest, table, shared);
    hide Resolved;
    forall u
      ensures u in rest <==> Present(table, u) && !NamedBy(table, shared, u)
      ensures u in rest ==> (u in r.owned <==> !AllDigits(u) || Reached(table, rest, u))
    {
      UnnamedIs(table, table, shared, u);
      if u in rest {
        ReachedIsNamed(table, rest, u);
      }
    }
  }

  // And then it owns those cards and no other.

  lemma {:induction false} FewValues<K(!new), V(!new)>(m: map<K, V>)
    ensures |m.Values| <= |m|
    decreases |m|
  {
    if k :| k in m {
      var rest := m - {k};
      FewValues(rest);
      assert m == rest[k := m[k]];
      assert m.Values <= rest.Values + {m[k]};
      SubsetCount(m.Values, rest.Values + {m[k]});
    }
  }

  /** A map from part of a finite set onto all of it is one of the whole set
      into itself. */
  lemma {:induction false} OntoIsInto<T(!new)>(m: map<T, T>, d: set<T>)
    requires m.Keys <= d && d <= m.Values
    ensures m.Keys == d && m.Values == d
  {
    FewValues(m);
    assert |m.Keys| == |m|;
    SubsetCount(m.Keys, d);
    SubsetCount(d, m.Values);
    SameCount(m.Keys, d);
    SameCount(d, m.Values);
  }

  lemma {:induction false} SameCount<T(!new)>(a: set<T>, b: set<T>)
    requires a <= b && |a| == |b|
    ensures a == b
  {
    assert b == a + (b - a) && |b| == |a| + |b - a|;
  }

  function Naming(table: seq<Gpu>, uuids: seq<string>): map<string, string> {
    map v | v in Elems(uuids) && AllDigits(v) && v in ByIndex(table) :: ByIndex(table)[v]
  }

  function DigitUuids(uuids: seq<string>): set<string> {
    set u | u in Elems(uuids) && AllDigits(u)
  }

  lemma {:induction false} NamingIsOnto(table: seq<Gpu>, uuids: seq<string>)
    requires AllReached(table, uuids)
    ensures Naming(table, uuids).Keys <= DigitUuids(uuids) && DigitUuids(uuids) <= Naming(table, uuids).Values
  {
    hide AllDigits, ByIndex;
    forall u | u in DigitUuids(uuids)
      ensures u in Naming(table, uuids).Values
    {
      assert Reached(table, uuids, u);
      var v :| v in uuids && AllDigits(v) && v in ByIndex(table) && ByIndex(table)[v] == u;
      assert v in Naming(table, uuids) && Naming(table, uuids)[v] == u;
    }
  }

  /** The entries that read as indices are then spread over their own cards. */
  lemma {:induction false} NamingIsInto(table: seq<Gpu>, uuids: seq<string>)
    requires AllReached(table, uuids)
    ensures forall v :: v in uuids && AllDigits(v) ==> v in ByIndex(table) && ByIndex(table)[v] in uuids && AllDigits(ByIndex(table)[v])
  {
    hide AllDigits, ByIndex, AllReached;
    NamingIsOnto(table, uuids);
    OntoIsInto(Naming(table, uuids), DigitUuids(uuids));
    forall v | v in uuids && AllDigits(v)
      ensures v in ByIndex(table) && ByIndex(table)[v] in uuids && AllDigits(ByIndex(table)[v])
    {
      assert v in DigitUuids(uuids);
      assert Naming(table, uuids)[v] in DigitUuids(uuids);
    }
  }

  /** So exactly then the host owns the unshared cards, all of them and no other,
      and nothing is missing. */
  lemma {:induction false} OwnsExactlyTheRest(table: seq<Gpu>, shared: seq<string>)
    ensures var rest := Unnamed(table, table, shared);
            var r := Resolved(rest, table, shared);
            (forall u :: u in r.owned <==> u in rest) && r.missing == [] <==> AllReached(table, rest)
  {
    hide AllDigits, Tallied, Unnamed, NamedBy, Lookup, AllReached;
    var rest := Unnamed(table, table, shared);
    var r := Resolved(rest, table, shared);
    OwnedAndSharedAreTheTable(table, shared);
    ResolvedIsCanonical(rest, table, shared);
    hide Resolved;
    if AllReached(table, rest) {
      NamingIsInto(table, rest);
      forall e | e in rest
        ensures Lookup(table, e).Some? && Lookup(table, e).value in rest
      {
        UnnamedIs(table, table, shared, e);
        LookupIs(table, e);
      }
      NoElements(r.missing);
      forall u | u in r.owned
        ensures u in rest
      {
        NamerOf(table, rest, u);
      }
    }
  }

  lemma {:induction false} LookupIs(table: seq<Gpu>, e: string)
    requires Present(table, e)
    ensures AllDigits(e) && e in ByIndex(table) ==> Lookup(table, e) == Some(ByIndex(table)[e])
    ensures !AllDigits(e) ==> Lookup(table, e) == Some(e)
  {
  }

  lemma {:induction false} NamerOf(table: seq<Gpu>, entries: seq<string>, uuid: string)
    requires NamedBy(table, entries, uuid)
    ensures exists e :: e in entries && Lookup(table, e) == Some(uuid)
  {
  }

  lemma {:induction false} ByIndexMore(table: seq<Gpu>, row: Gpu)
    requires row.index.Some?
    ensures ByIndex(table + [row]) == ByIndex(table)[Spelled(row.index.value) := row.uuid]
  {
    assert (table + [row])[..|table|] == table;
    hide Spelled;
  }

  lemma {:induction false} UnnamedMore(table: seq<Gpu>, rows: seq<Gpu>, row: Gpu)
    ensures Unnamed(table, rows + [row], []) == Unnamed(table, rows, []) + [row.uuid]
  {
    NobodyNamed(table);
    assert (rows + [row])[..|rows|] == rows;
    hide NamedBy;
  }

  lemma {:induction false} TalliedMore(entries: seq<string>, entry: string, table: seq<Gpu>)
    ensures Tallied(entries + [entry], table, []) == Counted(Tallied(entries, table, []), table, [], entry)
  {
    assert (entries + [entry])[..|entries|] == entries;
    hide Counted;
  }

  lemma {:induction false} NothingTallied(table: seq<Gpu>)
    ensures (forall claimed :: Tallied([], table, claimed) == Tally([], [], [], [])) && Unnamed(table, [], []) == []
  {
  }

  lemma {:induction false} TwoDigits()
    ensures Spelled(0) == "0" && Spelled(1) == "1" && AllDigits("0") && AllDigits("1")
  {
  }

  const Swapped: seq<Gpu> := [Gpu(Some(0), "1")] + [Gpu(Some(1), "0")]

  lemma {:induction false} SwappedLookups()
    ensures Lookup(Swapped, "0") == Some("1") && Lookup(Swapped, "1") == Some("0")
  {
    TwoDigits();
    var first, second := Gpu(Some(0), "1"), Gpu(Some(1), "0");
    ByIndexMore([], first);
    ByIndexMore([first], second);
    assert [] + [first] == [first];
    hide Spelled, AllDigits;
  }

  /** Two cards may have each other's index for a UUID: all is owned, though
      not in the order of the table. */
  lemma {:induction false} SwappedUuidsAreOwned()
    ensures Unnamed(Swapped, Swapped, []) == ["1"] + ["0"] && Resolved(["1"] + ["0"], Swapped, []) == Resolution(["0"] + ["1"], [], [], [], [])
  {
    SwappedLookups();
    NothingTallied(Swapped);
    var first, second := Gpu(Some(0), "1"), Gpu(Some(1), "0");
    UnnamedMore(Swapped, [], first);
    UnnamedMore(Swapped, [first], second);
    assert [] + [first] == [first];
    TalliedMore([], "1", Swapped);
    TalliedMore(["1"], "0", Swapped);
    assert [] + ["1"] == ["1"];
    hide Lookup, Unnamed, Tallied;
    SwappedResolved();
  }

  lemma {:induction false} SwappedResolved()
    requires Lookup(Swapped, "0") == Some("1") && Lookup(Swapped, "1") == Some("0")
    requires Tallied(["1"] + ["0"], Swapped, []) == Counted(Counted(Tally([], [], [], []), Swapped, [], "1"), Swapped, [], "0")
    requires forall claimed :: Tallied([], Swapped, claimed) == Tally([], [], [], [])
    ensures Resolved(["1"] + ["0"], Swapped, []) == Resolution(["0"] + ["1"], [], [], [], [])
  {
    hide Lookup, Tallied;
    var one := Counted(Tally([], [], [], []), Swapped, [], "1");
    assert one.uuids == [] + ["0"];
    assert one.uuids == ["0"];
    var two := Counted(one, Swapped, [], "0");
    assert two.uuids == ["0"] + ["1"];
  }

  // The program.

  method Resolve(owned: Option<seq<string>>, table: seq<Gpu>, shared: seq<string>) returns (r: Resolution)
    ensures r == Resolved(Owned(owned, table, shared), table, shared)
  {
    hide Lookup, NamedBy;
    var entries := if owned.Some? then owned.value else [];
    if owned.None? {
      for i := 0 to |table|
        invariant entries == Unnamed(table, table[..i], shared)
      {
        assert table[..i + 1][..i] == table[..i];
        if !NamedBy(table, shared, table[i].uuid) {
          entries := entries + [table[i].uuid];
        }
      }
      assert table[..|table|] == table;
    }
    var mine, missing, duplicates := Go(entries, table, [], []);
    var theirs, sharedMissing;
    theirs, sharedMissing, duplicates := Go(shared, table, mine, duplicates);
    r := Resolution(mine, theirs, missing, sharedMissing, duplicates);
  }

  /** One of the two loops over entries. */
  method Go(entries: seq<string>, table: seq<Gpu>, claimed: seq<string>, duplicates: seq<string>)
    returns (uuids: seq<string>, missing: seq<string>, again: seq<string>)
    ensures var t := Tallied(entries, table, claimed);
            uuids == t.uuids && missing == t.missing && again == duplicates + t.again
  {
    hide Lookup;
    uuids, missing, again := [], [], duplicates;
    for i := 0 to |entries|
      invariant var t := Tallied(entries[..i], table, claimed);
                uuids == t.uuids && missing == t.missing && again == duplicates + t.again
    {
      assert entries[..i + 1][..i] == entries[..i];
      var uuid := Lookup(table, entries[i]);
      if uuid.None? {
        missing := missing + [entries[i]];
      } else if uuid.value in claimed || uuid.value in uuids {
        again := again + [entries[i]];
      } else {
        uuids := uuids + [uuid.value];
      }
    }
    assert entries[..|entries|] == entries;
  }
}
