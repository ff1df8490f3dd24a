/**
 * One market per base asset. Backpack, Orderly and Paradex all run the same
 * loop over their perpetual markets, keeping a `grouped` Map from base asset
 * to the best row seen so far: a row replaces the held one when its quote
 * score is strictly higher, or (Backpack and Paradex only) when the scores tie
 * and its open interest is strictly higher. A full tie keeps the row seen
 * first. The Map keeps its keys in first-insertion order, and the result lists
 * the bases in that order.
 */
module Winners {
  import opened Strings
  import opened JsMaps

  /** `QUOTE_PRIORITY.indexOf(q) === -1 ? 0 : QUOTE_PRIORITY.length - i`. */
  function QuoteScore(priority: seq<string>, quote: string): (r: nat)
    ensures r <= |priority|
    ensures r == 0 <==> quote !in priority
    ensures quote in priority ==> r == |priority| - IndexOf(priority, quote)
  {
    var i := IndexOf(priority, quote);
    if i == -1 then 0 else |priority| - i
  }

  /** An earlier priority entry strictly outranks a later one. */
  lemma EarlierQuoteOutranks(priority: seq<string>, i: nat, j: nat)
    requires i < j < |priority|
    requires priority[j] !in priority[..j]
    ensures QuoteScore(priority, priority[i]) > QuoteScore(priority, priority[j]) > 0
  {
    assert priority[..j][i] == priority[i];
    assert IndexOf(priority, priority[i]) <= i;
  }

  /** A market offered for selection: its base asset, quote score, open interest and row. */
  datatype Candidate<P> = Candidate(base: string, score: nat, oi: real, payload: P)

  /** The replacement test `score > cur.score || (score === cur.score && oi > cur.oi)`;
      without the open-interest tie-break it is `score > cur.score`. */
  predicate Better<P>(c: Candidate<P>, cur: Candidate<P>, tieBreak: bool) {
    c.score > cur.score || (tieBreak && c.score == cur.score && c.oi > cur.oi)
  }

  /** The `grouped` Map: base asset to the row held for it. */
  type Grouped<P> = JsMap<Candidate<P>>

  ghost predicate WellFormed<P>(g: Grouped<P>) {
    Valid(g) && forall b :: b in g.values ==> g.values[b].base == b
  }

  /** One loop step: `if (!cur || better) grouped.set(base, c)`. */
  function Offer<P>(g: Grouped<P>, c: Candidate<P>, tieBreak: bool): Grouped<P> {
    if c.base !in g.values || Better(c, g.values[c.base], tieBreak) then Set(g, c.base, c) else g
  }

  /** The Map after offering every candidate in order. */
  function Fold<P>(cands: seq<Candidate<P>>, tieBreak: bool): Grouped<P>
    decreases |cands|
  {
    if |cands| == 0 then Empty()
    else Offer(Fold(cands[..|cands| - 1], tieBreak), cands[|cands| - 1], tieBreak)
  }

  datatype Winner<P> = Winner(pair: string, payload: P)

  /** Two candidates for one base: the second replaces the first exactly when it is better. */
  lemma TwoOffers<P>(c1: Candidate<P>, c2: Candidate<P>, tieBreak: bool)
    requires c1.base == c2.base
    ensures var g := Fold([c1, c2], tieBreak);
      (forall b :: b in g.keys ==> b in g.values) &&
      Entries(g) == [Winner(c1.base, if Better(c2, c1, tieBreak) then c2.payload else c1.payload)]
  {
    assert [c1, c2][..1] == [c1];
    assert [c1][..0] == [];
    var e: Grouped<P> := Empty();
    assert Fold([c1][..0], tieBreak) == e;
    assert Fold([c1], tieBreak) == Set(e, c1.base, c1);
  }

  /** `Array.from(grouped.entries()).map(([pair, v]) => ...)`. */
  function Entries<P>(g: Grouped<P>): (w: seq<Winner<P>>)
    requires forall b :: b in g.keys ==> b in g.values
    ensures |w| == |g.keys|
    ensures forall k :: 0 <= k < |w| ==> w[k] == Winner(g.keys[k], g.values[g.keys[k]].payload)
  {
    seq(|g.keys|, k requires 0 <= k < |g.keys| => Winner(g.keys[k], g.values[g.keys[k]].payload))
  }

  /** Candidate `j` is the first of the best candidates for its base. */
  ghost predicate IsFirstBest<P>(cands: seq<Candidate<P>>, j: nat, tieBreak: bool)
    requires j < |cands|
  {
    forall k :: 0 <= k < |cands| && cands[k].base == cands[j].base ==>
      !Better(cands[k], cands[j], tieBreak) && (k < j ==> Better(cands[j], cands[k], tieBreak))
  }

  /** Some candidate has base `b`. */
  ghost predicate Offered<P>(cands: seq<Candidate<P>>, b: string) {
    exists k :: 0 <= k < |cands| && cands[k].base == b
  }

  /** Some winner is for pair `b`. */
  ghost predicate Named<P>(w: seq<Winner<P>>, b: string) {
    exists k :: 0 <= k < |w| && w[k].pair == b
  }

  lemma {:induction false} FoldWellFormed<P>(cands: seq<Candidate<P>>, tieBreak: bool)
    ensures WellFormed(Fold(cands, tieBreak))
    ensures forall b :: b in Fold(cands, tieBreak).values <==> Offered(cands, b)
    decreases |cands|
  {
    if |cands| > 0 {
      var n := |cands| - 1;
      var pre := cands[..n];
      FoldWellFormed(pre, tieBreak);
      var g := Fold(pre, tieBreak);
      forall b ensures b in Fold(cands, tieBreak).values <==> Offered(cands, b) {
        if b in g.values {
          var k :| 0 <= k < |pre| && pre[k].base == b;
          assert cands[k].base == b;
        }
        if Offered(cands, b) {
          var k :| 0 <= k < |cands| && cands[k].base == b;
          if k < n { assert pre[k].base == b; }
        }
      }
    }
  }

  /** A row better than the held one is better than every row the held one beats or ties. */
  lemma BetterThanHeld<P>(c: Candidate<P>, h: Candidate<P>, x: Candidate<P>, tieBreak: bool)
    requires Better(c, h, tieBreak) && !Better(x, h, tieBreak)
    ensures Better(c, x, tieBreak) && !Better(x, c, tieBreak)
  {
  }

  lemma FoldStep<P>(cands: seq<Candidate<P>>, tieBreak: bool)
    requires |cands| > 0
    ensures Fold(cands, tieBreak) == Offer(Fold(cands[..|cands| - 1], tieBreak), cands[|cands| - 1], tieBreak)
  {
  }

  /** The last candidate, when it takes the base from every earlier one, is the first best. */
  lemma LastIsFirstBest<P>(cands: seq<Candidate<P>>, tieBreak: bool, i: nat)
    requires |cands| > 0
    requires var n := |cands| - 1;
      (forall k :: 0 <= k < n ==> cands[k].base != cands[n].base) ||
      (i < n && cands[i].base == cands[n].base && Better(cands[n], cands[i], tieBreak) && IsFirstBest(cands[..n], i, tieBreak))
    ensures IsFirstBest(cands, |cands| - 1, tieBreak)
  {
    var n := |cands| - 1;
    var c := cands[n];
    forall k | 0 <= k < |cands| && cands[k].base == c.base
      ensures !Better(cands[k], c, tieBreak) && (k < n ==> Better(c, cands[k], tieBreak))
    {
      if k < n {
        assert cands[..n][k] == cands[k];
        assert cands[..n][i] == cands[i];
        BetterThanHeld(c, cands[i], cands[k], tieBreak);
      }
    }
  }

  /** The candidate held for a base is the first best candidate with that base. */
  lemma {:induction false} HeldIsFirstBest<P>(cands: seq<Candidate<P>>, tieBreak: bool, b: string) returns (j: nat)
    requires b in Fold(cands, tieBreak).values
    ensures j < |cands| && cands[j] == Fold(cands, tieBreak).values[b] && cands[j].base == b
    ensures IsFirstBest(cands, j, tieBreak)
    decreases |cands|
  {
    var n := |cands| - 1;
    var pre := cands[..n];
    var c := cands[n];
    FoldWellFormed(pre, tieBreak);
    var g := Fold(pre, tieBreak);
    FoldStep(cands, tieBreak);
    if c.base == b && (b !in g.values || Better(c, g.values[b], tieBreak)) {
      j := n;
      assert Fold(cands, tieBreak).values[b] == c;
      if b in g.values {
        var i := HeldIsFirstBest(pre, tieBreak, b);
        assert cands[i] == pre[i];
        LastIsFirstBest(cands, tieBreak, i);
      } else {
        forall k | 0 <= k < n
          ensures cands[k].base != b
        {
          assert cands[k] == pre[k];
        }
        LastIsFirstBest(cands, tieBreak, 0);
      }
    } else {
      assert Fold(cands, tieBreak).values[b] == g.values[b];
      j := HeldIsFirstBest(pre, tieBreak, b);
      assert cands[j] == pre[j];
      forall k | 0 <= k < |cands| && cands[k].base == cands[j].base
        ensures !Better(cands[k], cands[j], tieBreak) && (k < j ==> Better(cands[j], cands[k], tieBreak))
      {
        if k < n { assert cands[k] == pre[k]; }
      }
    }
  }

  /** Winner `w` holds the row of the first best candidate for its base. */
  ghost predicate WinnerOf<P>(cands: seq<Candidate<P>>, tieBreak: bool, w: Winner<P>) {
    exists j :: 0 <= j < |cands| && cands[j].base == w.pair && cands[j].payload == w.payload && IsFirstBest(cands, j, tieBreak)
  }

  /**
   * The selection names each base at most once, in order of first appearance,
   * names exactly the bases some candidate has, and holds for each the row of
   * the first best candidate for it.
   */
  lemma EntriesProperties<P>(cands: seq<Candidate<P>>, tieBreak: bool)
    ensures WellFormed(Fold(cands, tieBreak))
    ensures var w := Entries(Fold(cands, tieBreak));
      && Distinct(seq(|w|, k requires 0 <= k < |w| => w[k].pair))
      && (forall b :: Named(w, b) <==> Offered(cands, b))
      && (forall k :: 0 <= k < |w| ==> WinnerOf(cands, tieBreak, w[k]))
      && (|w| == 0 <==> |cands| == 0)
  {
    FoldWellFormed(cands, tieBreak);
    var g := Fold(cands, tieBreak);
    var w := Entries(g);
    var pairs := seq(|w|, m requires 0 <= m < |w| => w[m].pair);
    assert pairs == g.keys;
    forall b ensures Named(w, b) <==> b in g.keys {
      if b in g.keys {
        var m :| 0 <= m < |g.keys| && g.keys[m] == b;
        assert w[m].pair == b;
      }
    }
    forall m | 0 <= m < |w|
      ensures WinnerOf(cands, tieBreak, w[m])
    {
      var j := HeldIsFirstBest(cands, tieBreak, w[m].pair);
    }
    if |cands| > 0 {
      assert Offered(cands, cands[0].base);
    }
  }

  /** The `_selectWinners` loop: offer every candidate, then list the Map's entries. */
  method Select<P>(cands: seq<Candidate<P>>, tieBreak: bool) returns (w: seq<Winner<P>>)
    ensures WellFormed(Fold(cands, tieBreak)) && w == Entries(Fold(cands, tieBreak))
  {
    var grouped := Group(cands, tieBreak);
    FoldWellFormed(cands, tieBreak);
    w := ListEntries(grouped);
  }

  /** The `for (const c of cands)` loop over the `grouped` Map. */
  method Group<P>(cands: seq<Candidate<P>>, tieBreak: bool) returns (grouped: Grouped<P>)
    ensures grouped == Fold(cands, tieBreak)
  {
    grouped := Empty();
    var i := 0;
    while i < |cands|
      invariant 0 <= i <= |cands|
      invariant grouped == Fold(cands[..i], tieBreak)
    {
      var c := cands[i];
      FoldStep(cands[..i + 1], tieBreak);
      assert cands[..i + 1][..i] == cands[..i];
      if c.base !in grouped.values || Better(c, grouped.values[c.base], tieBreak) {
        grouped := Set(grouped, c.base, c);
      }
      i := i + 1;
    }
    assert cands[..i] == cands;
  }

  /** `Array.from(grouped.entries()).map(...)`. */
  method ListEntries<P>(grouped: Grouped<P>) returns (w: seq<Winner<P>>)
    requires forall b :: b in grouped.keys ==> b in grouped.values
    ensures w == Entries(grouped)
  {
    w := [];
    var k := 0;
    while k < |grouped.keys|
      invariant 0 <= k <= |grouped.keys|
      invariant |w| == k
      invariant forall m :: 0 <= m < k ==> w[m] == Winner(grouped.keys[m], grouped.values[grouped.keys[m]].payload)
    {
      w := w + [Winner(grouped.keys[k], grouped.values[grouped.keys[k]].payload)];
      k := k + 1;
    }
  }
}
