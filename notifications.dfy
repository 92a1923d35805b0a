/** The device's record of enabled notifications, `_notifiedCharacteristics`
    (js/BluetoothDevice.js:126-155): a JavaScript object from a service to the
    characteristics enabled under it. The table is a list of entries with distinct
    services in insertion order; shutdown visits them in `Object.keys` order, which
    lists keys that are array indices first, ascending, and then the others in
    insertion order (`KeyOrder`). */
module Notifications {
  import opened Wrappers
  import opened Gatt

  datatype Entry = Entry(service: Uuid, characteristics: seq<Uuid>)

  type Table = seq<Entry>

  ghost predicate DistinctKeys(t: Table)
  {
    forall i, j :: 0 <= i < j < |t| ==> t[i].service != t[j].service
  }

  /** Keys are distinct and no key maps to an empty list. */
  ghost predicate WellFormed(t: Table)
  {
    && DistinctKeys(t)
    && (forall i :: 0 <= i < |t| ==> |t[i].characteristics| > 0)
  }

  /** Where the key `s` sits, if anywhere. */
  function IndexOf(t: Table, s: Uuid): (r: Option<nat>)
    ensures r.Some? ==> r.value < |t| && t[r.value].service == s
    ensures r.None? ==> forall i :: 0 <= i < |t| ==> t[i].service != s
  {
    if t == [] then None
    else if t[0].service == s then Some(0)
    else match IndexOf(t[1..], s)
      case None => None
      case Some(i) => Some(i + 1)
  }

  /** `_notifiedCharacteristics[s]`. */
  function Lookup(t: Table, s: Uuid): Option<seq<Uuid>>
  {
    match IndexOf(t, s)
    case None => None
    case Some(i) => Some(t[i].characteristics)
  }

  /** `splice(indexOf(c), 1)`: drop the first occurrence of `c`, if there is one. */
  function RemoveFirst(cs: seq<Uuid>, c: Uuid): seq<Uuid>
  {
    if cs == [] then []
    else if cs[0] == c then cs[1..]
    else [cs[0]] + RemoveFirst(cs[1..], c)
  }

  /** The bookkeeping of a successful enable: `c` is pushed under `s`, whose list
      is created first when the key is missing. */
  function Enable(t: Table, s: Uuid, c: Uuid): Table
  {
    match IndexOf(t, s)
    case None => t + [Entry(s, [c])]
    case Some(i) => t[i := Entry(s, t[i].characteristics + [c])]
  }

  /** The bookkeeping that precedes a disable: a missing key is dereferenced as
      `undefined` and throws; otherwise the first occurrence of `c` is removed and
      the key deleted when its list empties. */
  function Disable(t: Table, s: Uuid, c: Uuid): Result<Table, Failure>
  {
    match IndexOf(t, s)
    case None => Err(NoNotificationEntry(s))
    case Some(i) =>
      var cs := t[i].characteristics;
      if c !in cs then Ok(t)
      else
        var rest := RemoveFirst(cs, c);
        if |rest| == 0 then Ok(t[..i] + t[i + 1..]) else Ok(t[i := Entry(s, rest)])
  }

  /** Every (service, characteristic) pair, in the order shutdown visits them: the
      services in `Object.keys` order, each one's characteristics in list order. */
  function Pairs(t: Table): seq<(Uuid, Uuid)>
  {
    Rows(KeyOrder(t))
  }

  /** The pairs of a list of entries, entry by entry. */
  function Rows(t: Table): seq<(Uuid, Uuid)>
  {
    if t == [] then [] else Row(t[0].service, t[0].characteristics) + Rows(t[1..])
  }

  /** The pairs of one entry, in the order of its list. */
  function Row(s: Uuid, cs: seq<Uuid>): seq<(Uuid, Uuid)>
  {
    if cs == [] then [] else [(s, cs[0])] + Row(s, cs[1..])
  }

  /** The order `Object.keys` lists the keys in: keys that are array indices
      first, in ascending numeric order, then every other key in insertion order. */
  function KeyOrder(t: Table): Table
  {
    SortByIndex(IndexEntries(t)) + NamedEntries(t)
  }

  predicate IsDigit(c: char)
  {
    '0' <= c <= '9'
  }

  predicate AllDigits(s: string)
  {
    s == [] || (AllDigits(s[..|s| - 1]) && IsDigit(s[|s| - 1]))
  }

  /** A string of decimal digits without a leading zero (apart from "0" itself). */
  predicate Canonical(s: string)
  {
    && |s| > 0
    && AllDigits(s)
    && (|s| > 1 ==> s[0] != '0')
  }

  /** The value of a string of decimal digits. */
  function Numeral(s: string): nat
  {
    if s == [] then 0
    else Numeral(s[..|s| - 1]) * 10 + (if IsDigit(s[|s| - 1]) then s[|s| - 1] as int - '0' as int else 0)
  }

  /** An array index: the canonical numeral of an integer below 2^32 - 1. */
  predicate IsArrayIndex(s: Uuid)
  {
    Canonical(s) && Numeral(s) < 0xFFFF_FFFF
  }

  /** The entries whose key is an array index, in insertion order. */
  function IndexEntries(t: Table): Table
  {
    if t == [] then []
    else (if IsArrayIndex(t[0].service) then [t[0]] else []) + IndexEntries(t[1..])
  }

  /** The entries whose key is not an array index, in insertion order. */
  function NamedEntries(t: Table): Table
  {
    if t == [] then []
    else (if IsArrayIndex(t[0].service) then [] else [t[0]]) + NamedEntries(t[1..])
  }

  function InsertByIndex(e: Entry, t: Table): Table
  {
    if t == [] || Numeral(e.service) <= Numeral(t[0].service) then [e] + t
    else [t[0]] + InsertByIndex(e, t[1..])
  }

  function SortByIndex(t: Table): Table
  {
    if t == [] then [] else InsertByIndex(t[0], SortByIndex(t[1..]))
  }

  /** Removing the first occurrence takes exactly one copy of `c` away. */
  lemma {:induction false} RemoveFirstCount(cs: seq<Uuid>, c: Uuid)
    ensures c in cs ==> multiset(RemoveFirst(cs, c)) == multiset(cs) - multiset{c}
    ensures c !in cs ==> RemoveFirst(cs, c) == cs
  {
    if cs != [] && cs[0] != c {
      RemoveFirstCount(cs[1..], c);
      assert cs == [cs[0]] + cs[1..];
    } else if cs != [] {
      assert cs == [cs[0]] + cs[1..];
    }
  }

  /** With distinct keys, the entry holding `s` is the one `Lookup` finds. */
  lemma LookupAt(t: Table, s: Uuid, j: nat)
    requires DistinctKeys(t) && j < |t| && t[j].service == s
    ensures IndexOf(t, s) == Some(j)
    ensures Lookup(t, s) == Some(t[j].characteristics)
  {
  }

  /** Two tables with distinct keys whose entries for keys other than `s` are the
      same set agree on every key other than `s`. */
  lemma SameOtherKeys(t: Table, t': Table, s: Uuid)
    requires DistinctKeys(t) && DistinctKeys(t')
    requires forall i :: 0 <= i < |t| && t[i].service != s ==> t[i] in t'
    requires forall i :: 0 <= i < |t'| && t'[i].service != s ==> t'[i] in t
    ensures forall s' :: s' != s ==> Lookup(t', s') == Lookup(t, s')
  {
    forall s' | s' != s
      ensures Lookup(t', s') == Lookup(t, s')
    {
      if j :| 0 <= j < |t| && t[j].service == s' {
        assert t[j] in t';
        var j' :| 0 <= j' < |t'| && t'[j'] == t[j];
        LookupAt(t, s', j);
        LookupAt(t', s', j');
      } else {
        assert forall j' :: 0 <= j' < |t'| ==> t'[j'].service != s';
      }
    }
  }

  /** Enabling appends `c` to the list under `s` (creating it), leaves every
      other key as it was, and keeps the table well formed. */
  lemma EnableSpec(t: Table, s: Uuid, c: Uuid)
    requires WellFormed(t)
    ensures WellFormed(Enable(t, s, c))
    ensures Lookup(Enable(t, s, c), s) ==
      Some((if Lookup(t, s).Some? then Lookup(t, s).value else []) + [c])
    ensures forall s' :: s' != s ==> Lookup(Enable(t, s, c), s') == Lookup(t, s')
  {
    var t' := Enable(t, s, c);
    match IndexOf(t, s)
    case None =>
      assert t' == t + [Entry(s, [c])];
      assert Lookup(t, s) == None;
      LookupAt(t', s, |t|);
      assert Lookup(t', s) == Some([c]);
      assert [] + [c] == [c];
      forall k | 0 <= k < |t| ensures t[k] in t' {
        assert t'[k] == t[k];
      }
      SameOtherKeys(t, t', s);
    case Some(i) =>
      LookupAt(t, s, i);
      LookupAt(t', s, i);
      forall k | 0 <= k < |t'| && t'[k].service != s ensures t'[k] in t {
        assert t'[k] == t[k];
      }
      forall k | 0 <= k < |t| && t[k].service != s ensures t[k] in t' {
        assert t'[k] == t[k];
      }
      SameOtherKeys(t, t', s);
  }

  /** Disabling throws exactly when `s` is not a key; otherwise one occurrence of
      `c` leaves the list under `s`, the key is deleted when the list empties,
      every other key is unchanged, and the table stays well formed. */
  lemma DisableSpec(t: Table, s: Uuid, c: Uuid)
    requires WellFormed(t)
    ensures Disable(t, s, c).Err? <==> Lookup(t, s).None?
    ensures Disable(t, s, c).Ok? ==>
      && WellFormed(Disable(t, s, c).value)
      && var rest := RemoveFirst(Lookup(t, s).value, c);
         Lookup(Disable(t, s, c).value, s) == (if rest == [] then None else Some(rest))
    ensures Disable(t, s, c).Ok? ==>
      forall s' :: s' != s ==> Lookup(Disable(t, s, c).value, s') == Lookup(t, s')
  {
    match IndexOf(t, s)
    case None =>
    case Some(i) =>
      var cs := t[i].characteristics;
      LookupAt(t, s, i);
      RemoveFirstCount(cs, c);
      if c !in cs {
      } else if |RemoveFirst(cs, c)| == 0 {
        DisableDeletes(t, s, c, i);
      } else {
        DisableShrinks(t, s, c, i);
      }
  }

  lemma DisableDeletes(t: Table, s: Uuid, c: Uuid, i: nat)
    requires WellFormed(t) && i < |t| && t[i].service == s
    requires c in t[i].characteristics && RemoveFirst(t[i].characteristics, c) == []
    ensures Disable(t, s, c) == Ok(t[..i] + t[i + 1..])
    ensures WellFormed(t[..i] + t[i + 1..])
    ensures Lookup(t[..i] + t[i + 1..], s) == None
    ensures forall s' :: s' != s ==> Lookup(t[..i] + t[i + 1..], s') == Lookup(t, s')
  {
    LookupAt(t, s, i);
    var t' := t[..i] + t[i + 1..];
    DeleteEntry(t, i);
    forall k | 0 <= k < |t| && t[k].service != s ensures t[k] in t' {
      assert t'[if k < i then k else k - 1] == t[k];
    }
    SameOtherKeys(t, t', s);
  }

  lemma DisableShrinks(t: Table, s: Uuid, c: Uuid, i: nat)
    requires WellFormed(t) && i < |t| && t[i].service == s
    requires c in t[i].characteristics && RemoveFirst(t[i].characteristics, c) != []
    ensures Disable(t, s, c) == Ok(t[i := Entry(s, RemoveFirst(t[i].characteristics, c))])
    ensures WellFormed(t[i := Entry(s, RemoveFirst(t[i].characteristics, c))])
    ensures Lookup(t[i := Entry(s, RemoveFirst(t[i].characteristics, c))], s)
      == Some(RemoveFirst(t[i].characteristics, c))
    ensures forall s' :: s' != s ==>
      Lookup(t[i := Entry(s, RemoveFirst(t[i].characteristics, c))], s') == Lookup(t, s')
  {
    LookupAt(t, s, i);
    var t' := t[i := Entry(s, RemoveFirst(t[i].characteristics, c))];
    LookupAt(t', s, i);
    forall k | 0 <= k < |t'| && t'[k].service != s ensures t'[k] in t {
      assert t'[k] == t[k];
    }
    forall k | 0 <= k < |t| && t[k].service != s ensures t[k] in t' {
      assert t'[k] == t[k];
    }
    SameOtherKeys(t, t', s);
  }

  /** Deleting the entry at `i` keeps the table well formed and leaves no entry
      for its key. */
  lemma DeleteEntry(t: Table, i: nat)
    requires WellFormed(t) && i < |t|
    ensures var t' := t[..i] + t[i + 1..];
      && WellFormed(t')
      && (forall k :: 0 <= k < |t'| ==> t'[k] == (if k < i then t[k] else t[k + 1]))
      && (forall k :: 0 <= k < |t'| ==> t'[k] in t && t'[k].service != t[i].service)
  {
  }

  /** Enabling a pair that was not recorded and then disabling it restores the
      table exactly, key order included. */
  lemma EnableThenDisable(t: Table, s: Uuid, c: Uuid)
    requires WellFormed(t)
    requires Lookup(t, s).None? || c !in Lookup(t, s).value
    ensures Disable(Enable(t, s, c), s, c) == Ok(t)
  {
    var t' := Enable(t, s, c);
    EnableSpec(t, s, c);
    match IndexOf(t, s)
    case None =>
      assert t' == t + [Entry(s, [c])];
      LookupAt(t', s, |t|);
      assert t'[|t|].characteristics == [c];
      assert RemoveFirst([c], c) == [];
      assert t'[..|t|] == t && t'[|t| + 1..] == [];
      assert t'[..|t|] + t'[|t| + 1..] == t;
      assert Disable(t', s, c) == Ok(t'[..|t|] + t'[|t| + 1..]);
    case Some(i) =>
      var cs := t[i].characteristics;
      LookupAt(t', s, i);
      RemoveLast(cs, c);
      assert t'[i].characteristics == cs + [c] && c in cs + [c];
      assert |cs| > 0 && t[i] == Entry(s, cs);
      assert t'[i := Entry(s, cs)] == t;
      assert Disable(t', s, c) == Ok(t'[i := Entry(s, cs)]);
  }

  lemma {:induction false} RemoveLast(cs: seq<Uuid>, c: Uuid)
    requires c !in cs
    ensures RemoveFirst(cs + [c], c) == cs
  {
    if cs != [] {
      assert (cs + [c])[1..] == cs[1..] + [c];
      RemoveLast(cs[1..], c);
    }
  }

  /** Enabling a pair twice records it twice, so one disable leaves it recorded
      although the driver has been told to stop. */
  lemma EnableTwiceDisableOnce(t: Table, s: Uuid, c: Uuid)
    requires WellFormed(t)
    ensures Disable(Enable(Enable(t, s, c), s, c), s, c).Ok?
    ensures var t' := Disable(Enable(Enable(t, s, c), s, c), s, c).value;
      Lookup(t', s).Some? && c in Lookup(t', s).value
  {
    var t1 := Enable(t, s, c);
    EnableSpec(t, s, c);
    var t2 := Enable(t1, s, c);
    EnableSpec(t1, s, c);
    DisableSpec(t2, s, c);
    var cs := Lookup(t2, s).value;
    assert multiset(cs)[c] >= 2 by {
      var before := Lookup(t1, s).value;
      assert cs == before + [c];
      assert before[|before| - 1] == c;
      assert before == before[..|before| - 1] + [c];
    }
    RemoveFirstCount(cs, c);
    assert multiset(RemoveFirst(cs, c))[c] >= 1;
  }

  ghost predicate Ascending(t: Table)
  {
    forall i, j :: 0 <= i < j < |t| ==> Numeral(t[i].service) <= Numeral(t[j].service)
  }

  /** The two filters split the table: together they hold every entry once. */
  lemma {:induction false} FiltersSplit(t: Table)
    ensures multiset(IndexEntries(t)) + multiset(NamedEntries(t)) == multiset(t)
  {
    if t != [] {
      FiltersSplit(t[1..]);
      var e := t[0];
      assert multiset(t) == multiset{e} + multiset(t[1..]) by {
        assert t == [e] + t[1..];
      }
      if IsArrayIndex(e.service) {
        assert IndexEntries(t) == [e] + IndexEntries(t[1..]);
        assert NamedEntries(t) == NamedEntries(t[1..]);
      } else {
        assert IndexEntries(t) == IndexEntries(t[1..]);
        assert NamedEntries(t) == [e] + NamedEntries(t[1..]);
      }
    }
  }

  /** The first filter keeps only array-index keys. */
  lemma {:induction false} IndexEntriesAreIndices(t: Table)
    ensures forall i :: 0 <= i < |IndexEntries(t)| ==> IsArrayIndex(IndexEntries(t)[i].service)
  {
    if t != [] {
      IndexEntriesAreIndices(t[1..]);
    }
  }

  /** The second filter keeps no array-index key. */
  lemma {:induction false} NamedEntriesAreNames(t: Table)
    ensures forall i :: 0 <= i < |NamedEntries(t)| ==> !IsArrayIndex(NamedEntries(t)[i].service)
  {
    if t != [] {
      NamedEntriesAreNames(t[1..]);
    }
  }

  /** Filtering out the array-index keys keeps the insertion order of the rest:
      it distributes over concatenation. */
  lemma {:induction false} NamedEntriesAppend(a: Table, b: Table)
    ensures NamedEntries(a + b) == NamedEntries(a) + NamedEntries(b)
  {
    if a != [] {
      assert (a + b)[1..] == a[1..] + b;
      NamedEntriesAppend(a[1..], b);
    } else {
      assert a + b == b;
    }
  }

  lemma {:induction false} InsertByIndexPermutes(e: Entry, t: Table)
    ensures multiset(InsertByIndex(e, t)) == multiset(t) + multiset{e}
  {
    if t != [] && Numeral(e.service) > Numeral(t[0].service) {
      InsertByIndexPermutes(e, t[1..]);
      assert t == [t[0]] + t[1..];
    }
  }

  lemma {:induction false} InsertByIndexAscending(e: Entry, t: Table)
    requires Ascending(t)
    ensures Ascending(InsertByIndex(e, t))
  {
    if t == [] {
    } else if Numeral(e.service) <= Numeral(t[0].service) {
      ConsAscending(e, t);
    } else {
      var r := InsertByIndex(e, t[1..]);
      InsertByIndexPermutes(e, t[1..]);
      InsertByIndexAscending(e, t[1..]);
      AtLeastHead(e, t, r);
      ConsAscending(t[0], r);
    }
  }

  /** An entry no greater than any entry of an ascending list can go in front. */
  lemma ConsAscending(x: Entry, r: Table)
    requires Ascending(r)
    requires forall k :: 0 <= k < |r| ==> Numeral(x.service) <= Numeral(r[k].service)
    ensures Ascending([x] + r)
  {
    var out := [x] + r;
    forall i, j | 0 <= i < j < |out| ensures Numeral(out[i].service) <= Numeral(out[j].service) {
      assert out[j] == r[j - 1];
      if i > 0 {
        assert out[i] == r[i - 1];
      }
    }
  }

  /** Every entry of the rest, and the inserted one, is at least the head. */
  lemma AtLeastHead(e: Entry, t: Table, r: Table)
    requires t != [] && Numeral(e.service) > Numeral(t[0].service)
    requires Ascending(t)
    requires multiset(r) == multiset(t[1..]) + multiset{e}
    ensures forall k :: 0 <= k < |r| ==> Numeral(t[0].service) <= Numeral(r[k].service)
  {
    forall k | 0 <= k < |r| ensures Numeral(t[0].service) <= Numeral(r[k].service) {
      assert r[k] in multiset(r);
      if r[k] != e {
        assert r[k] in multiset(t[1..]);
        var m :| 0 <= m < |t[1..]| && t[1..][m] == r[k];
        assert t[m + 1] == r[k];
      }
    }
  }

  lemma {:induction false} SortByIndexPermutes(t: Table)
    ensures multiset(SortByIndex(t)) == multiset(t)
  {
    if t != [] {
      var rest := SortByIndex(t[1..]);
      SortByIndexPermutes(t[1..]);
      InsertByIndexPermutes(t[0], rest);
      assert multiset(t) == multiset(t[1..]) + multiset{t[0]} by {
        assert t == [t[0]] + t[1..];
      }
    }
  }

  lemma {:induction false} SortByIndexAscending(t: Table)
    ensures Ascending(SortByIndex(t))
  {
    if t != [] {
      SortByIndexAscending(t[1..]);
      InsertByIndexAscending(t[0], SortByIndex(t[1..]));
    }
  }

  /** `KeyOrder` lists every entry once: first the `n` entries whose key is an array
      index, by ascending value, then the other entries in insertion order. */
  lemma KeyOrderSpec(t: Table)
    ensures var r := KeyOrder(t); var n := |IndexEntries(t)|;
      && n <= |r|
      && multiset(r) == multiset(t)
      && (forall i :: 0 <= i < |r| ==> (IsArrayIndex(r[i].service) <==> i < n))
      && (forall i, j :: 0 <= i < j < n ==> Numeral(r[i].service) <= Numeral(r[j].service))
      && r[n..] == NamedEntries(t)
  {
    var r := KeyOrder(t);
    var sorted := SortByIndex(IndexEntries(t));
    FiltersSplit(t);
    IndexEntriesAreIndices(t);
    NamedEntriesAreNames(t);
    SortByIndexPermutes(IndexEntries(t));
    SortByIndexAscending(IndexEntries(t));
    assert |sorted| == |IndexEntries(t)| by {
      assert |multiset(sorted)| == |multiset(IndexEntries(t))|;
    }
    forall i | 0 <= i < |sorted| ensures IsArrayIndex(sorted[i].service) {
      assert sorted[i] in multiset(IndexEntries(t));
    }
    assert r == sorted + NamedEntries(t);
  }

  lemma {:induction false} IndexEntriesAppend(a: Table, b: Table)
    ensures IndexEntries(a + b) == IndexEntries(a) + IndexEntries(b)
  {
    if a != [] {
      assert (a + b)[1..] == a[1..] + b;
      IndexEntriesAppend(a[1..], b);
    } else {
      assert a + b == b;
    }
  }

  /** A service whose key is not an array index, recorded after the others, is
      visited after every other service. */
  lemma NamedKeyLast(t: Table, e: Entry)
    requires !IsArrayIndex(e.service)
    ensures KeyOrder(t + [e]) == KeyOrder(t) + [e]
  {
    IndexEntriesAppend(t, [e]);
    NamedEntriesAppend(t, [e]);
    assert [e][1..] == [];
    assert IndexEntries([e]) == [] && NamedEntries([e]) == [e];
    assert IndexEntries(t) + [] == IndexEntries(t);
  }

  /** Two array-index keys with the same value are the same key, so the ascending
      order of `KeyOrder` leaves no choice among distinct keys. */
  lemma {:induction false} NumeralInjective(s: string, s': string)
    requires Canonical(s) && Canonical(s') && Numeral(s) == Numeral(s')
    ensures s == s'
  {
    NumeralBounds(s);
    NumeralBounds(s');
    if |s| != |s'| {
      if |s| < |s'| {
        PowMonotone(|s|, |s'| - 1);
      } else {
        PowMonotone(|s'|, |s| - 1);
      }
    } else if |s| > 1 {
      var p, p' := s[..|s| - 1], s'[..|s'| - 1];
      assert p[0] == s[0] && p'[0] == s'[0];
      NumeralInjective(p, p');
      assert s == p + [s[|s| - 1]] && s' == p' + [s'[|s'| - 1]];
    }
  }

  function Pow10(n: nat): nat
  {
    if n == 0 then 1 else 10 * Pow10(n - 1)
  }

  lemma {:induction false} PowMonotone(m: nat, n: nat)
    requires m <= n
    ensures Pow10(m) <= Pow10(n)
  {
    if m < n {
      PowMonotone(m, n - 1);
    }
  }

  /** A numeral of `k` digits is below 10^k, and at least 10^(k-1) when canonical
      and longer than one digit. */
  lemma {:induction false} NumeralBounds(s: string)
    requires AllDigits(s)
    ensures Numeral(s) < Pow10(|s|)
    ensures Canonical(s) && |s| > 1 ==> Pow10(|s| - 1) <= Numeral(s)
  {
    if s != [] {
      var p := s[..|s| - 1];
      NumeralBounds(p);
      if Canonical(s) && |s| > 2 {
        assert p[0] == s[0];
        assert Canonical(p);
      } else if Canonical(s) && |s| == 2 {
        assert p == [s[0]] && s[0] != '0';
      }
    }
  }

  /** Shutdown visits exactly the recorded pairs. */
  lemma PairsSpec(t: Table)
    requires WellFormed(t)
    ensures forall s, c :: (s, c) in Pairs(t) <==> Lookup(t, s).Some? && c in Lookup(t, s).value
  {
    var r := KeyOrder(t);
    KeyOrderSpec(t);
    forall s, c ensures (s, c) in Pairs(t) <==> Lookup(t, s).Some? && c in Lookup(t, s).value {
      RowsMember(r, s, c);
      if (s, c) in Pairs(t) {
        var i :| 0 <= i < |r| && r[i].service == s && c in r[i].characteristics;
        assert r[i] in multiset(t);
        var j :| 0 <= j < |t| && t[j] == r[i];
        LookupAt(t, s, j);
      } else if Lookup(t, s).Some? {
        var j := IndexOf(t, s).value;
        assert t[j] in multiset(r);
        var i :| 0 <= i < |r| && r[i] == t[j];
      }
    }
  }

  lemma {:induction false} RowsMember(t: Table, s: Uuid, c: Uuid)
    ensures (s, c) in Rows(t) <==> exists i :: 0 <= i < |t| && t[i].service == s && c in t[i].characteristics
  {
    if t != [] {
      RowsMember(t[1..], s, c);
      RowMember(t[0].service, t[0].characteristics, s, c);
      if (s, c) in Rows(t[1..]) {
        var i :| 0 <= i < |t[1..]| && t[1..][i].service == s && c in t[1..][i].characteristics;
        assert t[i + 1] == t[1..][i];
      }
      if i :| 0 <= i < |t| && t[i].service == s && c in t[i].characteristics {
        if i > 0 {
          assert t[1..][i - 1] == t[i];
        }
      }
    }
  }

  lemma {:induction false} RowMember(s0: Uuid, cs: seq<Uuid>, s: Uuid, c: Uuid)
    ensures (s, c) in Row(s0, cs) <==> s == s0 && c in cs
  {
    if cs != [] {
      RowMember(s0, cs[1..], s, c);
      assert cs == [cs[0]] + cs[1..];
    }
  }

  /** On iOS, a service keyed "1818" is disabled before one keyed "180D" even when
      "180D" was enabled first: "1818" is an array index and "180D" is not. */
  lemma IndexKeysFirst()
    ensures var t := [Entry("180D", ["2A37"]), Entry("1818", ["2A63"])];
      Pairs(t) == [("1818", "2A63"), ("180D", "2A37")]
  {
    assert !IsDigit("180D"[3]) && "180D"[..3] == "180";
    assert !IsArrayIndex("180D");
    assert Numeral("1") == 1;
    assert "18"[..1] == "1";
    assert "181"[..2] == "18";
    assert "1818"[..3] == "181";
    assert Numeral("1818") == 1818;
    assert IsArrayIndex("1818");
  }
}
