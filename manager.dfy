/**
 * The opportunity store of `runner/manager.py`: a table from pair to the list
 * of arbitrage opportunities reported for it, where a report for a
 * (short DEX, long DEX) combination already listed replaces that entry and
 * any other report is appended.
 */
module Manager {
  import opened Wrappers
  import JsMaps

  /** One element of the incoming list; `None` is a key the element lacks. */
  datatype Opportunity = Opportunity(
    pair: Option<string>,
    shortDex: Option<string>,
    longDex: Option<string>,
    netApr: Option<real>,
    riskLevel: Option<string>)

  /** A stored entry: exactly the six fields the store keeps. */
  datatype Entry = Entry(
    pair: string,
    shortDex: Option<string>,
    longDex: Option<string>,
    netApr: Option<real>,
    riskLevel: Option<string>,
    timestamp: int)

  type Table = JsMaps.JsMap<seq<Entry>>

  /** `if not pair: continue` skips a missing or empty pair. */
  predicate HasPair(o: Opportunity) {
    o.pair.Some? && o.pair.value != ""
  }

  function EntryOf(o: Opportunity, now: int): Entry
    requires HasPair(o)
  {
    Entry(o.pair.value, o.shortDex, o.longDex, o.netApr, o.riskLevel, now)
  }

  predicate SameLegs(a: Entry, b: Entry) {
    a.shortDex == b.shortDex && a.longDex == b.longDex
  }

  /** No two entries of a list share their (short, long) combination. */
  predicate DistinctLegs(list: seq<Entry>) {
    forall i, j :: 0 <= i < j < |list| ==> !SameLegs(list[i], list[j])
  }

  /** The index of the first entry with the legs of `e`, or `|list|` when none has them. */
  function IndexOfLegs(list: seq<Entry>, e: Entry): (k: nat)
    ensures k <= |list|
    ensures k < |list| ==> SameLegs(list[k], e)
    ensures forall j :: 0 <= j < k ==> !SameLegs(list[j], e)
    decreases |list|
  {
    if |list| == 0 then 0
    else if SameLegs(list[0], e) then 0
    else 1 + IndexOfLegs(list[1..], e)
  }

  /** The inner loop and the `append` after it. */
  function Upsert(list: seq<Entry>, e: Entry): seq<Entry> {
    var k := IndexOfLegs(list, e);
    if k < |list| then list[k := e] else list + [e]
  }

  /** A matching entry is replaced at its own index, the first match only;
      without a match the entry goes to the end. */
  lemma UpsertCases(list: seq<Entry>, e: Entry)
    ensures (exists k :: 0 <= k < |list| && SameLegs(list[k], e)) ==>
      |Upsert(list, e)| == |list| &&
      exists k :: 0 <= k < |list| && SameLegs(list[k], e) && Upsert(list, e) == list[k := e] &&
        forall j :: 0 <= j < k ==> !SameLegs(list[j], e)
    ensures (forall k :: 0 <= k < |list| ==> !SameLegs(list[k], e)) ==> Upsert(list, e) == list + [e]
  {
    var k := IndexOfLegs(list, e);
    if k < |list| {
      assert SameLegs(list[k], e) && Upsert(list, e) == list[k := e];
    }
  }

  /** The new entry is in the list, the list grows by at most one, and a list
      without repeated combinations keeps none. */
  lemma UpsertProperties(list: seq<Entry>, e: Entry)
    ensures e in Upsert(list, e)
    ensures |list| <= |Upsert(list, e)| <= |list| + 1
    ensures DistinctLegs(list) ==> DistinctLegs(Upsert(list, e))
  {
    var k := IndexOfLegs(list, e);
    var r := Upsert(list, e);
    if k < |list| {
      assert r[k] == e;
    } else {
      assert r[|list|] == e;
    }
    if DistinctLegs(list) {
      forall i, j | 0 <= i < j < |r|
        ensures !SameLegs(r[i], r[j])
      {
        if k == |list| {
          if j == |list| {
            assert r[i] == list[i];
          }
        } else if i == k {
          assert r[j] == list[j];
        } else if j == k {
          assert r[i] == list[i];
        } else {
          assert r[i] == list[i] && r[j] == list[j];
        }
      }
    }
  }

  function ListOf(t: Table, p: string): seq<Entry> {
    if p in t.values then t.values[p] else []
  }

  /** One iteration of the outer loop. */
  function HandleOne(t: Table, o: Opportunity, now: int): Table {
    if !HasPair(o) then t
    else JsMaps.Set(t, o.pair.value, Upsert(ListOf(t, o.pair.value), EntryOf(o, now)))
  }

  /** The outer loop over the first `|data|` opportunities. */
  function Handled(t: Table, data: seq<Opportunity>, now: int): Table
    decreases |data|
  {
    if |data| == 0 then t
    else HandleOne(Handled(t, data[..|data| - 1], now), data[|data| - 1], now)
  }

  /** A reported opportunity ends up stored under its pair, a skipped one
      changes nothing, every other pair keeps its list, and the pair's list
      grows by at most one. */
  lemma HandleOneEffect(t: Table, o: Opportunity, now: int, p: string)
    ensures !HasPair(o) ==> HandleOne(t, o, now) == t
    ensures HasPair(o) ==> (o.pair.value in HandleOne(t, o, now).values &&
      EntryOf(o, now) in HandleOne(t, o, now).values[o.pair.value] &&
      |ListOf(t, o.pair.value)| <= |HandleOne(t, o, now).values[o.pair.value]| <= |ListOf(t, o.pair.value)| + 1)
    ensures (!HasPair(o) || p != o.pair.value) ==> ListOf(HandleOne(t, o, now), p) == ListOf(t, p)
  {
    if HasPair(o) {
      UpsertProperties(ListOf(t, o.pair.value), EntryOf(o, now));
    }
  }

  /** The table invariant: a valid map whose lists have no repeated combination. */
  ghost predicate Consistent(t: Table) {
    JsMaps.Valid(t) && forall p :: p in t.values ==> DistinctLegs(t.values[p])
  }

  lemma {:induction false} HandledConsistent(t: Table, data: seq<Opportunity>, now: int)
    requires Consistent(t)
    ensures Consistent(Handled(t, data, now))
    decreases |data|
  {
    if |data| > 0 {
      var t' := Handled(t, data[..|data| - 1], now);
      HandledConsistent(t, data[..|data| - 1], now);
      var o := data[|data| - 1];
      if HasPair(o) {
        var l := ListOf(t', o.pair.value);
        assert DistinctLegs(l);
        UpsertProperties(l, EntryOf(o, now));
        JsMaps.SetValid(t', o.pair.value, Upsert(l, EntryOf(o, now)));
      }
    }
  }

  /** A pair that none of the opportunities names keeps its list. */
  lemma {:induction false} HandledLeavesOtherPairs(t: Table, data: seq<Opportunity>, now: int, p: string)
    requires forall i :: 0 <= i < |data| ==> data[i].pair != Some(p)
    ensures ListOf(Handled(t, data, now), p) == ListOf(t, p)
    decreases |data|
  {
    if |data| > 0 {
      HandledLeavesOtherPairs(t, data[..|data| - 1], now, p);
      HandleOneEffect(Handled(t, data[..|data| - 1], now), data[|data| - 1], now, p);
    }
  }

  /** `stored_opportunities`. */
  class OpportunityStore {
    var lastUpdated: Option<int>
    var table: Table

    ghost predicate Valid()
      reads this
    {
      Consistent(table)
    }

    constructor()
      ensures Valid() && lastUpdated == None && table == JsMaps.Empty()
    {
      lastUpdated := None;
      table := JsMaps.Empty();
    }

    /** `handle_opportunity(data)`, with `now` the reading of `int(time())`. */
    method HandleOpportunity(data: seq<Opportunity>, now: int) returns (stored: bool)
      requires Valid()
      modifies this
      ensures Valid()
      ensures stored
      ensures table == Handled(old(table), data, now)
      ensures lastUpdated == Some(now)
    {
      ghost var t0 := table;
      HandledConsistent(t0, data, now);
      for n := 0 to |data|
        invariant table == Handled(t0, data[..n], now)
      {
        assert data[..n + 1][..n] == data[..n];
        var o := data[n];
        if o.pair.None? || o.pair.value == "" {
          continue;
        }
        var pair := o.pair.value;
        var entry := EntryOf(o, now);
        if pair !in table.values {
          table := JsMaps.Set(table, pair, []);
        }
        var list := table.values[pair];
        var replaced := false;
        var i := 0;
        while i < |list|
          invariant 0 <= i <= |list|
          invariant !replaced
          invariant forall j :: 0 <= j < i ==> !SameLegs(list[j], entry)
        {
          if list[i].shortDex == entry.shortDex && list[i].longDex == entry.longDex {
            replaced := true;
            break;
          }
          i := i + 1;
        }
        ghost var k := IndexOfLegs(list, entry);
        if replaced {
          assert k == i;
          list := list[i := entry];
        } else {
          assert k == |list|;
          list := list + [entry];
        }
        table := JsMaps.Set(table, pair, list);
      }
      assert data[..|data|] == data;
      lastUpdated := Some(now);
      stored := true;
    }

    /** `get_latest_opportunities()` reads the store without changing it. */
    method GetLatest() returns (updated: Option<int>, current: Table)
      ensures updated == lastUpdated && current == table
    {
      updated := lastUpdated;
      current := table;
    }
  }
}
