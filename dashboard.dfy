/**
 * The dashboard's opportunity view (`front-end/script.js`): the rows kept by
 * the pair, search, DEX and risk filters, ordered by net APR, highest first,
 * and the top row shown above the table.
 */
module Dashboard {
  import opened Wrappers
  import Strings

  /** A stored opportunity as the page receives it. `None` is an absent field;
      `netApr` is None also when `net_apr > 5` cannot hold for other reasons. */
  datatype Opp = Opp(
    pair: string,
    longDex: Option<string>,
    shortDex: Option<string>,
    netApr: Option<real>,
    riskLevel: Option<string>)

  /** One `[pair, opportunities]` of `Object.entries(allData)`. */
  datatype PairRow = PairRow(pair: string, opportunities: seq<Opp>)

  /** The control values: the pair and risk selects, the checked DEX boxes and the search box. */
  datatype Selection = Selection(pair: string, risk: string, dexes: seq<string>, search: string)

  /** The two early `return`s of the outer `forEach`. */
  predicate PairShown(sel: Selection, pair: string) {
    (sel.pair == "ALL" || pair == sel.pair) &&
    (Strings.Lower(sel.search) == "" || Strings.Contains(Strings.Lower(pair), Strings.Lower(sel.search)))
  }

  /** The condition of the inner `forEach`. */
  predicate Qualifies(sel: Selection, o: Opp) {
    o.netApr.Some? && o.netApr.value > 5.0 &&
    o.longDex.Some? && o.longDex.value in sel.dexes &&
    o.shortDex.Some? && o.shortDex.value in sel.dexes &&
    (sel.risk == "ALL" || o.riskLevel == Some(sel.risk))
  }

  /** The qualifying opportunities of one pair, in their order. */
  function Kept(sel: Selection, opps: seq<Opp>): seq<Opp>
    decreases |opps|
  {
    if |opps| == 0 then []
    else Kept(sel, opps[..|opps| - 1]) + (if Qualifies(sel, opps[|opps| - 1]) then [opps[|opps| - 1]] else [])
  }

  function KeptOfRow(sel: Selection, row: PairRow): seq<Opp> {
    if PairShown(sel, row.pair) then Kept(sel, row.opportunities) else []
  }

  /** The `results` array before sorting. */
  function Filtered(sel: Selection, data: seq<PairRow>): seq<Opp>
    decreases |data|
  {
    if |data| == 0 then []
    else Filtered(sel, data[..|data| - 1]) + KeptOfRow(sel, data[|data| - 1])
  }

  /** An opportunity reaches the results exactly when its pair is shown and it qualifies. */
  predicate Offered(sel: Selection, data: seq<PairRow>, o: Opp) {
    exists i, j :: 0 <= i < |data| && 0 <= j < |data[i].opportunities| &&
      data[i].opportunities[j] == o && PairShown(sel, data[i].pair) && Qualifies(sel, o)
  }

  lemma {:induction false} KeptExactly(sel: Selection, opps: seq<Opp>, o: Opp)
    ensures o in Kept(sel, opps) <==> o in opps && Qualifies(sel, o)
    decreases |opps|
  {
    if |opps| > 0 {
      var init := opps[..|opps| - 1];
      KeptExactly(sel, init, o);
      assert opps == init + [opps[|opps| - 1]];
    }
  }

  /** Every pushed opportunity is offered. */
  lemma {:induction false} FilteredSound(sel: Selection, data: seq<PairRow>, o: Opp)
    requires o in Filtered(sel, data)
    ensures Offered(sel, data, o)
    decreases |data|
  {
    var init := data[..|data| - 1];
    var last := data[|data| - 1];
    if o in Filtered(sel, init) {
      FilteredSound(sel, init, o);
      var i, j :| 0 <= i < |init| && 0 <= j < |init[i].opportunities| &&
        init[i].opportunities[j] == o && PairShown(sel, init[i].pair) && Qualifies(sel, o);
      assert data[i] == init[i];
    } else {
      assert o in KeptOfRow(sel, last);
      KeptExactly(sel, last.opportunities, o);
      var j :| 0 <= j < |last.opportunities| && last.opportunities[j] == o;
      assert data[|data| - 1].opportunities[j] == o;
    }
  }

  /** Every offered opportunity is pushed. */
  lemma {:induction false} FilteredComplete(sel: Selection, data: seq<PairRow>, o: Opp)
    requires Offered(sel, data, o)
    ensures o in Filtered(sel, data)
    decreases |data|
  {
    var init := data[..|data| - 1];
    var last := data[|data| - 1];
    var i, j :| 0 <= i < |data| && 0 <= j < |data[i].opportunities| &&
      data[i].opportunities[j] == o && PairShown(sel, data[i].pair) && Qualifies(sel, o);
    if i < |init| {
      assert init[i] == data[i];
      FilteredComplete(sel, init, o);
    } else {
      KeptExactly(sel, last.opportunities, o);
    }
  }

  lemma FilteredExactly(sel: Selection, data: seq<PairRow>, o: Opp)
    ensures o in Filtered(sel, data) <==> Offered(sel, data, o)
  {
    if o in Filtered(sel, data) {
      FilteredSound(sel, data, o);
    }
    if Offered(sel, data, o) {
      FilteredComplete(sel, data, o);
    }
  }

  /** The comparator's key; every filtered row has a net APR. */
  function Apr(o: Opp): real {
    o.netApr.GetOr(0.0)
  }

  predicate SortedByApr(s: seq<Opp>) {
    forall i, j :: 0 <= i < j < |s| ==> Apr(s[i]) >= Apr(s[j])
  }

  /** Insert `x` after every element whose APR is at least its own. */
  function Insert(x: Opp, s: seq<Opp>): seq<Opp>
    decreases |s|
  {
    if |s| == 0 then [x]
    else if Apr(s[0]) >= Apr(x) then [s[0]] + Insert(x, s[1..])
    else [x] + s
  }

  /** `results.sort((a, b) => b.net_apr - a.net_apr)`: a stable sort, highest APR first. */
  function SortByApr(s: seq<Opp>): seq<Opp>
    decreases |s|
  {
    if |s| == 0 then [] else Insert(s[|s| - 1], SortByApr(s[..|s| - 1]))
  }

  lemma {:induction false} InsertMultiset(x: Opp, s: seq<Opp>)
    ensures multiset(Insert(x, s)) == multiset(s) + multiset{x}
    decreases |s|
  {
    if |s| > 0 && Apr(s[0]) >= Apr(x) {
      InsertMultiset(x, s[1..]);
      assert s == [s[0]] + s[1..];
    }
  }

  /** Inserting keeps every APR under a common bound. */
  lemma {:induction false} InsertBounded(x: Opp, s: seq<Opp>, b: real)
    requires Apr(x) <= b
    requires forall k :: 0 <= k < |s| ==> Apr(s[k]) <= b
    ensures forall k :: 0 <= k < |Insert(x, s)| ==> Apr(Insert(x, s)[k]) <= b
    decreases |s|
  {
    if |s| > 0 && Apr(s[0]) >= Apr(x) {
      InsertBounded(x, s[1..], b);
    }
  }

  lemma {:induction false} InsertSorted(x: Opp, s: seq<Opp>)
    requires SortedByApr(s)
    ensures SortedByApr(Insert(x, s))
    decreases |s|
  {
    if |s| > 0 && Apr(s[0]) >= Apr(x) {
      InsertSorted(x, s[1..]);
      InsertBounded(x, s[1..], Apr(s[0]));
    }
  }

  /** The sort leaves the rows in non-increasing net APR. */
  lemma {:induction false} SortIsSorted(s: seq<Opp>)
    ensures SortedByApr(SortByApr(s))
    decreases |s|
  {
    if |s| > 0 {
      SortIsSorted(s[..|s| - 1]);
      InsertSorted(s[|s| - 1], SortByApr(s[..|s| - 1]));
    }
  }

  /** The sort keeps every row, as often as it occurs. */
  lemma {:induction false} SortIsPermutation(s: seq<Opp>)
    ensures multiset(SortByApr(s)) == multiset(s)
    decreases |s|
  {
    if |s| > 0 {
      var init := s[..|s| - 1];
      SortIsPermutation(init);
      InsertMultiset(s[|s| - 1], SortByApr(init));
      assert s == init + [s[|s| - 1]];
    }
  }

  lemma SortProperties(s: seq<Opp>)
    ensures SortedByApr(SortByApr(s))
    ensures multiset(SortByApr(s)) == multiset(s)
  {
    SortIsSorted(s);
    SortIsPermutation(s);
  }

  /**
   * `filterOpportunities()`. Every row is one the filters offer, every
   * offered row is there as often as the filter loop pushed it, and the rows
   * run from the highest net APR down.
   */
  method FilterOpportunities(sel: Selection, data: seq<PairRow>) returns (rows: seq<Opp>)
    ensures rows == SortByApr(Filtered(sel, data))
    ensures SortedByApr(rows) && multiset(rows) == multiset(Filtered(sel, data))
    ensures forall o :: o in rows <==> Offered(sel, data, o)
  {
    var results: seq<Opp> := [];
    for n := 0 to |data|
      invariant results == Filtered(sel, data[..n])
    {
      assert data[..n + 1][..n] == data[..n];
      var row := data[n];
      if sel.pair != "ALL" && row.pair != sel.pair {
        continue;
      }
      var searchText := Strings.Lower(sel.search);
      if searchText != "" && !Strings.Contains(Strings.Lower(row.pair), searchText) {
        continue;
      }
      ghost var before := results;
      for j := 0 to |row.opportunities|
        invariant results == before + Kept(sel, row.opportunities[..j])
      {
        assert row.opportunities[..j + 1][..j] == row.opportunities[..j];
        var o := row.opportunities[j];
        if o.netApr.Some? && o.netApr.value > 5.0 && o.longDex.Some? && o.longDex.value in sel.dexes &&
          o.shortDex.Some? && o.shortDex.value in sel.dexes && (sel.risk == "ALL" || o.riskLevel == Some(sel.risk))
        {
          results := results + [o];
        }
      }
      assert row.opportunities[..|row.opportunities|] == row.opportunities;
    }
    assert data[..|data|] == data;
    rows := SortByApr(results);
    SortProperties(results);
    forall o
      ensures o in rows <==> Offered(sel, data, o)
    {
      assert o in rows <==> o in multiset(results);
      FilteredExactly(sel, data, o);
    }
  }

  /** `renderTop()`: the first filtered row, or None for the "No top opportunity" placeholder. */
  function Top(rows: seq<Opp>): Option<Opp> {
    if |rows| == 0 then None else Some(rows[0])
  }

  /** The top row exists exactly when some opportunity is offered, is one of
      them, and has the highest net APR among them. */
  lemma TopIsBest(sel: Selection, data: seq<PairRow>)
    ensures var t := Top(SortByApr(Filtered(sel, data)));
      (t.Some? <==> |Filtered(sel, data)| > 0) &&
      (t.Some? ==> (Offered(sel, data, t.value) &&
        forall o :: Offered(sel, data, o) ==> Apr(o) <= Apr(t.value)))
  {
    var f := Filtered(sel, data);
    var rows := SortByApr(f);
    SortProperties(f);
    assert |rows| == |f| by {
      assert |multiset(rows)| == |multiset(f)|;
    }
    if |rows| > 0 {
      assert rows[0] in multiset(rows);
      FilteredExactly(sel, data, rows[0]);
      forall o | Offered(sel, data, o)
        ensures Apr(o) <= Apr(rows[0])
      {
        FilteredExactly(sel, data, o);
        assert o in multiset(rows);
        var k :| 0 <= k < |rows| && rows[k] == o;
      }
    }
  }
}
