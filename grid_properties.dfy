/**
 * What `generateGridData` (src/App.tsx:41-167) promises about its result:
 * the shape and keys of the grid, the large-cell, info-cell, span and
 * product rules, the number of draws each cell takes from the generator,
 * and the duplicate policy.
 */
module GridProperties {
  import opened Wrappers
  import opened Text
  import opened Prng
  import opened Layout
  import opened Catalog
  import opened Selection
  import opened Grid

  // ---------------------------------------------------------------------------
  // Reference definitions

  /** The indices below `n` that the pattern makes large, ascending. */
  function LargePositions(pattern: LargeCellPattern, customLargeCellIndices: seq<int>, n: nat): seq<int> {
    if n == 0 then []
    else LargePositions(pattern, customLargeCellIndices, n - 1) + (if IsLarge(pattern, customLargeCellIndices, n - 1) then [n - 1] else [])
  }

  /** `LargePositions` lists, ascending, exactly the large indices below `n`. */
  lemma {:induction false} LargePositionsSpec(pattern: LargeCellPattern, customLargeCellIndices: seq<int>, n: nat)
    ensures var r := LargePositions(pattern, customLargeCellIndices, n);
      && |r| <= n
      && (forall i :: 0 <= i < |r| ==> 0 <= r[i] < n)
      && (forall i, j :: 0 <= i < j < |r| ==> r[i] < r[j])
      && (forall x :: 0 <= x < n ==> (x in r <==> IsLarge(pattern, customLargeCellIndices, x)))
  {
    if n > 0 {
      LargePositionsSpec(pattern, customLargeCellIndices, n - 1);
      assert n - 1 !in LargePositions(pattern, customLargeCellIndices, n - 1);
    }
  }

  /** The positions of the info cells (`shouldBeImageCell` false) of a grid, ascending. */
  function InfoPositions(items: seq<GridItem>): seq<int> {
    if items == [] then []
    else InfoPositions(items[..|items| - 1]) + (if !items[|items| - 1].shouldBeImageCell then [|items| - 1] else [])
  }

  /** `InfoPositions` lists, ascending, exactly the positions of the info cells. */
  lemma {:induction false} InfoPositionsSpec(items: seq<GridItem>)
    ensures var r := InfoPositions(items);
      && (forall i :: 0 <= i < |r| ==> 0 <= r[i] < |items|)
      && (forall i, j :: 0 <= i < j < |r| ==> r[i] < r[j])
      && (forall x :: 0 <= x < |items| ==> (x in r <==> !items[x].shouldBeImageCell))
  {
    if items != [] {
      var init := items[..|items| - 1];
      InfoPositionsSpec(init);
      assert |items| - 1 !in InfoPositions(init);
      assert forall x :: 0 <= x < |init| ==> init[x] == items[x];
    }
  }

  /** A grid of image cells only has no info positions. */
  lemma {:induction false} InfoPositionsNone(items: seq<GridItem>)
    requires forall i :: 0 <= i < |items| ==> items[i].shouldBeImageCell
    ensures InfoPositions(items) == []
  {
    if items != [] {
      InfoPositionsNone(items[..|items| - 1]);
    }
  }

  /** Draws cell `index` takes: one for the image/info test when it applies, one for the product. */
  function CellDraws(cfg: LayoutConfig, index: nat): (k: nat)
    ensures k == 1 || k == 2
    ensures k == 2 <==> InfoDrawTaken(cfg, index)
  {
    (if InfoDrawTaken(cfg, index) then 1 else 0) + 1
  }

  /** Draws taken by the first `n` cells. */
  function DrawsBefore(cfg: LayoutConfig, n: nat): (k: nat)
    ensures n <= k <= 2 * n
    ensures !cfg.enableInfoCells ==> k == n
  {
    if n == 0 then 0 else DrawsBefore(cfg, n - 1) + CellDraws(cfg, n - 1)
  }

  // ---------------------------------------------------------------------------
  // One iteration, stated on `Run` alone

  /** The iteration for `i` appends one cell and one pick and keeps the earlier ones. */
  lemma RunAppendsStep(cfg: LayoutConfig, sorted: seq<Product>, out: U32 -> U32, i: nat)
    requires |sorted| > 0
    ensures var st := Run(cfg, sorted, out, i); var r := Run(cfg, sorted, out, i + 1);
      && |r.items| == |st.items| + 1 && r.items[..|st.items|] == st.items
      && |r.picks| == |st.picks| + 1 && r.picks[..|st.picks|] == st.picks
  {
    RunNext(cfg, sorted, out, i);
    var st := Run(cfg, sorted, out, i);
    var r := Run(cfg, sorted, out, i + 1);
    assert r.items[..|st.items|] == st.items;
    assert r.picks[..|st.picks|] == st.picks;
  }

  /** The cell the iteration for `i` appends (lines 81-160). */
  lemma RunCellStep(cfg: LayoutConfig, sorted: seq<Product>, out: U32 -> U32, i: nat)
    requires |sorted| > 0
    ensures var st := Run(cfg, sorted, out, i); var r := Run(cfg, sorted, out, i + 1);
      && |r.items| == |st.items| + 1 && |r.picks| == |st.picks| + 1
      && var item := r.items[|st.items|];
        var isLarge := IsLarge(cfg.largeCellPattern, cfg.customLargeCellIndices, i);
        var spanSize := SpanSize(cfg.largeCellSize);
        && item.cellKey == CellKey(i)
        && item.isLargeCell == isLarge
        && item.shouldBeImageCell == (isLarge || ImageDecision(cfg, i, st.rng, out).isImage)
        && item.span == (if isLarge
          then Large(spanSize, ColumnStart(cfg.largeCellPattern, cfg.gridColumnCount, spanSize, i, st.largeCellCounter + 1))
          else Plain)
        && r.picks[|st.picks|] < |sorted|
        && item.product == sorted[r.picks[|st.picks|]]
  {
    RunNext(cfg, sorted, out, i);
  }

  /** Lines 88-91 for index `i`. */
  lemma RunLargeStep(cfg: LayoutConfig, sorted: seq<Product>, out: U32 -> U32, i: nat)
    requires |sorted| > 0
    ensures var st := Run(cfg, sorted, out, i); var r := Run(cfg, sorted, out, i + 1);
      var isLarge := IsLarge(cfg.largeCellPattern, cfg.customLargeCellIndices, i);
      && r.largeCellIndices == st.largeCellIndices + (if isLarge then [i] else [])
      && r.largeCellCounter == st.largeCellCounter + (if isLarge then 1 else 0)
  {
    RunNext(cfg, sorted, out, i);
  }

  /** Lines 103-107 for index `i`: the iteration keeps `infoCellIndices` equal to the info positions. */
  lemma RunInfoStep(cfg: LayoutConfig, sorted: seq<Product>, out: U32 -> U32, i: nat)
    requires |sorted| > 0
    requires |Run(cfg, sorted, out, i).items| == i
    requires Run(cfg, sorted, out, i).infoCellIndices == InfoPositions(Run(cfg, sorted, out, i).items)
    ensures Run(cfg, sorted, out, i + 1).infoCellIndices == InfoPositions(Run(cfg, sorted, out, i + 1).items)
  {
    RunNext(cfg, sorted, out, i);
    var st, r := Run(cfg, sorted, out, i), Run(cfg, sorted, out, i + 1);
    assert r.items[..i] == st.items;
    InfoPositionsAppend(st.items, r.items, st.infoCellIndices, r.infoCellIndices);
  }

  /** The iteration for `i` takes exactly the draws of its cell. */
  lemma RunDrawsStep(cfg: LayoutConfig, sorted: seq<Product>, out: U32 -> U32, i: nat)
    requires |sorted| > 0
    ensures Run(cfg, sorted, out, i + 1).rng == Advance(Run(cfg, sorted, out, i).rng, CellDraws(cfg, i))
  {
    RunNext(cfg, sorted, out, i);
    var k := if InfoDrawTaken(cfg, i) then 1 else 0;
    AdvanceAdd(Run(cfg, sorted, out, i).rng, k, 1);
  }

  /** Lines 136-149 on the used set for index `i`. */
  lemma RunUsedStep(cfg: LayoutConfig, sorted: seq<Product>, out: U32 -> U32, i: nat)
    requires |sorted| > 0
    ensures var st := Run(cfg, sorted, out, i); var r := Run(cfg, sorted, out, i + 1);
      && |r.picks| == |st.picks| + 1
      && var p := r.picks[|st.picks|];
        && p < |sorted|
        && (cfg.allowDuplicateProducts ==> r.used == st.used)
        && (!cfg.allowDuplicateProducts && !Exhausted(|sorted|, st.used) ==> p !in st.used && r.used == st.used + {p})
        && (!cfg.allowDuplicateProducts && Exhausted(|sorted|, st.used) ==> r.used == {p})
  {
    RunNext(cfg, sorted, out, i);
  }

  // ---------------------------------------------------------------------------
  // The loop state after `n` iterations

  lemma {:induction false} RunLength(cfg: LayoutConfig, sorted: seq<Product>, out: U32 -> U32, n: nat)
    requires |sorted| > 0
    ensures |Run(cfg, sorted, out, n).items| == n && |Run(cfg, sorted, out, n).picks| == n
  {
    if n > 0 {
      RunLength(cfg, sorted, out, n - 1);
      RunAppendsStep(cfg, sorted, out, n - 1);
    }
  }

  /** Later iterations only append: the first `m` cells are those of `Run(m)`. */
  lemma {:induction false} RunPrefix(cfg: LayoutConfig, sorted: seq<Product>, out: U32 -> U32, n: nat, m: nat)
    requires |sorted| > 0 && m <= n
    ensures |Run(cfg, sorted, out, n).items| == n && |Run(cfg, sorted, out, n).picks| == n
    ensures Run(cfg, sorted, out, n).items[..m] == Run(cfg, sorted, out, m).items
    ensures Run(cfg, sorted, out, n).picks[..m] == Run(cfg, sorted, out, m).picks
    decreases n
  {
    RunLength(cfg, sorted, out, n);
    if m < n {
      RunPrefix(cfg, sorted, out, n - 1, m);
      RunAppendsStep(cfg, sorted, out, n - 1);
      var prev, st, early := Run(cfg, sorted, out, n - 1), Run(cfg, sorted, out, n), Run(cfg, sorted, out, m);
      PrefixOfPrefix(st.items, prev.items, early.items, m);
      PrefixOfPrefix(st.picks, prev.picks, early.picks, m);
    }
  }

  lemma PrefixOfPrefix<T>(a: seq<T>, b: seq<T>, c: seq<T>, m: nat)
    requires |b| <= |a| && a[..|b|] == b
    requires m <= |b| && b[..m] == c
    ensures a[..m] == c
  {
    assert a[..m] == a[..|b|][..m];
  }

  /** The summary's `largeCellIndices` and `largeCellCounter` follow the pattern. */
  lemma {:induction false} RunLarge(cfg: LayoutConfig, sorted: seq<Product>, out: U32 -> U32, n: nat)
    requires |sorted| > 0
    ensures Run(cfg, sorted, out, n).largeCellIndices == LargePositions(cfg.largeCellPattern, cfg.customLargeCellIndices, n)
    ensures Run(cfg, sorted, out, n).largeCellCounter == |LargePositions(cfg.largeCellPattern, cfg.customLargeCellIndices, n)|
  {
    if n > 0 {
      RunLarge(cfg, sorted, out, n - 1);
      RunLargeStep(cfg, sorted, out, n - 1);
    }
  }

  /** The summary's `infoCellIndices` are exactly the positions of the info cells. */
  lemma {:induction false} RunInfo(cfg: LayoutConfig, sorted: seq<Product>, out: U32 -> U32, n: nat)
    requires |sorted| > 0
    ensures Run(cfg, sorted, out, n).infoCellIndices == InfoPositions(Run(cfg, sorted, out, n).items)
  {
    if n > 0 {
      RunInfo(cfg, sorted, out, n - 1);
      RunLength(cfg, sorted, out, n - 1);
      RunInfoStep(cfg, sorted, out, n - 1);
    }
  }

  /** Appending one cell to a grid whose info positions are known adds its position exactly when it is an info cell. */
  lemma InfoPositionsAppend(init: seq<GridItem>, items: seq<GridItem>, before: seq<int>, after: seq<int>)
    requires |items| == |init| + 1 && items[..|init|] == init
    requires before == InfoPositions(init)
    requires after == before + (if items[|init|].shouldBeImageCell then [] else [|init|])
    ensures after == InfoPositions(items)
  {
    assert items[..|items| - 1] == init;
  }

  /** After `n` cells the generator has advanced by exactly the draws of those cells. */
  lemma {:induction false} RunDraws(cfg: LayoutConfig, sorted: seq<Product>, out: U32 -> U32, n: nat)
    requires |sorted| > 0
    ensures Run(cfg, sorted, out, n).rng == Advance(SeedState(cfg.seed), DrawsBefore(cfg, n))
  {
    if n == 0 {
      assert Advance(SeedState(cfg.seed), 0) == SeedState(cfg.seed);
    } else {
      RunDraws(cfg, sorted, out, n - 1);
      RunDrawsStep(cfg, sorted, out, n - 1);
      AdvanceChain(SeedState(cfg.seed), DrawsBefore(cfg, n - 1), CellDraws(cfg, n - 1),
        Run(cfg, sorted, out, n - 1).rng, Run(cfg, sorted, out, n).rng, DrawsBefore(cfg, n));
    }
  }

  /** Advancing by `a` and then by `b` advances by `a + b`, stated on named states. */
  lemma AdvanceChain(s: U32, a: nat, b: nat, mid: U32, end: U32, total: nat)
    requires mid == Advance(s, a) && end == Advance(mid, b) && total == a + b
    ensures end == Advance(s, total)
  {
    AdvanceAdd(s, a, b);
  }

  /** Cell `i` as the iteration for `index = i` builds it. */
  lemma CellRule(cfg: LayoutConfig, sorted: seq<Product>, out: U32 -> U32, i: nat)
    requires |sorted| > 0
    ensures |Run(cfg, sorted, out, i + 1).items| == i + 1 && |Run(cfg, sorted, out, i + 1).picks| == i + 1
    ensures var item := Run(cfg, sorted, out, i + 1).items[i];
      var isLarge := IsLarge(cfg.largeCellPattern, cfg.customLargeCellIndices, i);
      var spanSize := SpanSize(cfg.largeCellSize);
      var decision := ImageDecision(cfg, i, Run(cfg, sorted, out, i).rng, out);
      && item.cellKey == CellKey(i)
      && item.isLargeCell == isLarge
      && item.shouldBeImageCell == (isLarge || decision.isImage)
      && item.span == (if isLarge
        then Large(spanSize, ColumnStart(cfg.largeCellPattern, cfg.gridColumnCount, spanSize, i,
          |LargePositions(cfg.largeCellPattern, cfg.customLargeCellIndices, i + 1)|))
        else Plain)
      && Run(cfg, sorted, out, i + 1).picks[i] < |sorted|
      && item.product == sorted[Run(cfg, sorted, out, i + 1).picks[i]]
  {
    RunLength(cfg, sorted, out, i);
    RunLarge(cfg, sorted, out, i);
    RunLarge(cfg, sorted, out, i + 1);
    RunCellStep(cfg, sorted, out, i);
  }

  /** Cell `i` of a longer run is the cell the `i`-th iteration built. */
  lemma CellStays(cfg: LayoutConfig, sorted: seq<Product>, out: U32 -> U32, n: nat, i: nat)
    requires |sorted| > 0 && i < n
    ensures |Run(cfg, sorted, out, n).items| == n && |Run(cfg, sorted, out, i + 1).items| == i + 1
    ensures |Run(cfg, sorted, out, n).picks| == n && |Run(cfg, sorted, out, i + 1).picks| == i + 1
    ensures Run(cfg, sorted, out, n).items[i] == Run(cfg, sorted, out, i + 1).items[i]
    ensures Run(cfg, sorted, out, n).picks[i] == Run(cfg, sorted, out, i + 1).picks[i]
  {
    RunPrefix(cfg, sorted, out, n, i + 1);
    RunLength(cfg, sorted, out, i + 1);
    assert Run(cfg, sorted, out, n).items[i] == Run(cfg, sorted, out, n).items[..i + 1][i];
    assert Run(cfg, sorted, out, n).picks[i] == Run(cfg, sorted, out, n).picks[..i + 1][i];
  }

  /** The used set only ever holds valid indices, and stays empty when duplicates are allowed. */
  lemma {:induction false} RunUsedInRange(cfg: LayoutConfig, sorted: seq<Product>, out: U32 -> U32, n: nat)
    requires |sorted| > 0
    ensures forall x :: x in Run(cfg, sorted, out, n).used ==> x < |sorted|
    ensures cfg.allowDuplicateProducts ==> Run(cfg, sorted, out, n).used == {}
  {
    if n > 0 {
      RunUsedInRange(cfg, sorted, out, n - 1);
      RunUsedStep(cfg, sorted, out, n - 1);
    }
  }

  /**
   * Without duplicates and with no more cells than products, the used set
   * holds exactly the picks so far and no pick repeats.
   */
  lemma {:induction false} RunDistinct(cfg: LayoutConfig, sorted: seq<Product>, out: U32 -> U32, n: nat)
    requires |sorted| > 0 && !cfg.allowDuplicateProducts && n <= |sorted|
    ensures |Run(cfg, sorted, out, n).picks| == n
    ensures |Run(cfg, sorted, out, n).used| == n
    ensures forall i :: 0 <= i < n ==> Run(cfg, sorted, out, n).picks[i] in Run(cfg, sorted, out, n).used
    ensures forall i, j :: 0 <= i < j < n ==> Run(cfg, sorted, out, n).picks[i] != Run(cfg, sorted, out, n).picks[j]
  {
    RunLength(cfg, sorted, out, n);
    if n > 0 {
      RunDistinct(cfg, sorted, out, n - 1);
      RunUsedInRange(cfg, sorted, out, n - 1);
      var prev := Run(cfg, sorted, out, n - 1);
      var st := Run(cfg, sorted, out, n);
      ExhaustedByCount(|sorted|, prev.used);
      RunUsedStep(cfg, sorted, out, n - 1);
      RunAppendsStep(cfg, sorted, out, n - 1);
      DistinctAppend(prev.picks, prev.used, st.picks, st.used);
    }
  }

  /** A fresh pick keeps "the used set is exactly the distinct picks". */
  lemma DistinctAppend(picks0: seq<nat>, used0: set<nat>, picks: seq<nat>, used: set<nat>)
    requires |used0| == |picks0|
    requires forall i :: 0 <= i < |picks0| ==> picks0[i] in used0
    requires forall i, j :: 0 <= i < j < |picks0| ==> picks0[i] != picks0[j]
    requires |picks| == |picks0| + 1 && picks[..|picks0|] == picks0
    requires picks[|picks0|] !in used0 && used == used0 + {picks[|picks0|]}
    ensures |used| == |picks|
    ensures forall i :: 0 <= i < |picks| ==> picks[i] in used
    ensures forall i, j :: 0 <= i < j < |picks| ==> picks[i] != picks[j]
  {
    assert forall i :: 0 <= i < |picks0| ==> picks[i] == picks0[i];
  }

  // ---------------------------------------------------------------------------
  // One call of `generateGridData`

  /** The sorted list the call works on. */
  function Sorted(products: seq<Product>, cfg: LayoutConfig, categoryRank: string -> real): (s: seq<Product>)
    requires |products| > 0
    ensures |s| == |products| && multiset(s) == multiset(products)
  {
    SortProductsPermutes(products, cfg.productSort, categoryRank);
    SortProducts(products, cfg.productSort, categoryRank)
  }

  /**
   * Exactly `gridDensity` cells (none when it is not positive), the `i`-th
   * keyed `cell-i`, so the keys are distinct; the summary passes the size,
   * the seed and the column count through.
   */
  lemma GenerateShape(products: seq<Product>, cfg: LayoutConfig, categoryRank: string -> real)
    requires |products| > 0
    ensures var g := Generate(products, cfg, categoryRank);
      && |g.gridItems| == (if cfg.gridDensity > 0 then cfg.gridDensity else 0)
      && (forall i :: 0 <= i < |g.gridItems| ==> g.gridItems[i].cellKey == CellKey(i))
      && (forall i, j :: 0 <= i < j < |g.gridItems| ==> g.gridItems[i].cellKey != g.gridItems[j].cellKey)
      && g.config.largeCellSize == cfg.largeCellSize
      && g.config.seed == cfg.seed
      && g.config.columnCount == cfg.gridColumnCount
  {
    var sorted := Sorted(products, cfg, categoryRank);
    var out := Mix;
    var n := CellCount(cfg);
    var items := Run(cfg, sorted, out, n).items;
    RunLength(cfg, sorted, out, n);
    forall i | 0 <= i < n
      ensures items[i].cellKey == CellKey(i)
    {
      CellStays(cfg, sorted, out, n, i);
      CellRule(cfg, sorted, out, i);
    }
    forall i, j | 0 <= i < j < n
      ensures items[i].cellKey != items[j].cellKey
    {
      CellKeyInjective(i, j);
    }
  }

  /**
   * The large-cell rule: listed indices under `custom`, multiples of 5 under
   * `default`, multiples of 3 under `alternate`; large cells are image cells;
   * `largeCellIndices` lists exactly the large cells, ascending.
   */
  lemma GenerateLarge(products: seq<Product>, cfg: LayoutConfig, categoryRank: string -> real)
    requires |products| > 0
    ensures var g := Generate(products, cfg, categoryRank);
      && (forall i :: 0 <= i < |g.gridItems| ==>
        && (cfg.largeCellPattern == Custom ==> (g.gridItems[i].isLargeCell <==> i in cfg.customLargeCellIndices))
        && (cfg.largeCellPattern == Default ==> (g.gridItems[i].isLargeCell <==> i % 5 == 0))
        && (cfg.largeCellPattern == Alternate ==> (g.gridItems[i].isLargeCell <==> i % 3 == 0))
        && (g.gridItems[i].isLargeCell ==> g.gridItems[i].shouldBeImageCell)
        && (g.gridItems[i].isLargeCell <==> i in g.config.largeCellIndices))
      && (forall k :: 0 <= k < |g.config.largeCellIndices| ==> 0 <= g.config.largeCellIndices[k] < |g.gridItems|)
      && (forall k, l :: 0 <= k < l < |g.config.largeCellIndices| ==> g.config.largeCellIndices[k] < g.config.largeCellIndices[l])
  {
    var sorted := Sorted(products, cfg, categoryRank);
    var out := Mix;
    var n := CellCount(cfg);
    var items := Run(cfg, sorted, out, n).items;
    RunLength(cfg, sorted, out, n);
    RunLarge(cfg, sorted, out, n);
    LargePositionsSpec(cfg.largeCellPattern, cfg.customLargeCellIndices, n);
    forall i | 0 <= i < n
      ensures items[i].isLargeCell == IsLarge(cfg.largeCellPattern, cfg.customLargeCellIndices, i)
      ensures items[i].isLargeCell ==> items[i].shouldBeImageCell
    {
      CellStays(cfg, sorted, out, n, i);
      CellRule(cfg, sorted, out, i);
    }
  }

  /**
   * `infoCellIndices` lists exactly the info cells, ascending, and shares no
   * index with `largeCellIndices`.
   */
  lemma GenerateInfo(products: seq<Product>, cfg: LayoutConfig, categoryRank: string -> real)
    requires |products| > 0
    ensures var g := Generate(products, cfg, categoryRank);
      && (forall i :: 0 <= i < |g.gridItems| ==> (i in g.config.infoCellIndices <==> !g.gridItems[i].shouldBeImageCell))
      && (forall k :: 0 <= k < |g.config.infoCellIndices| ==> 0 <= g.config.infoCellIndices[k] < |g.gridItems|)
      && (forall k, l :: 0 <= k < l < |g.config.infoCellIndices| ==> g.config.infoCellIndices[k] < g.config.infoCellIndices[l])
      && (forall x :: x in g.config.infoCellIndices ==> x !in g.config.largeCellIndices)
  {
    var sorted := Sorted(products, cfg, categoryRank);
    var out := Mix;
    var n := CellCount(cfg);
    RunInfo(cfg, sorted, out, n);
    RunLength(cfg, sorted, out, n);
    InfoPositionsSpec(Run(cfg, sorted, out, n).items);
    GenerateLarge(products, cfg, categoryRank);
  }

  /**
   * The image/info test: with info cells off every cell is an image cell;
   * under `custom` a listed, not large index is an info cell; with a
   * frequency of 0 or less the only info cells are listed ones.
   */
  lemma GenerateImageRule(products: seq<Product>, cfg: LayoutConfig, categoryRank: string -> real)
    requires |products| > 0
    ensures var g := Generate(products, cfg, categoryRank);
      && (!cfg.enableInfoCells ==> g.config.infoCellIndices == [] && forall i :: 0 <= i < |g.gridItems| ==> g.gridItems[i].shouldBeImageCell)
      && (forall i :: 0 <= i < |g.gridItems| ==>
        (cfg.enableInfoCells && cfg.largeCellPattern == Custom && i in cfg.customInfoCellIndices && !g.gridItems[i].isLargeCell
         ==> !g.gridItems[i].shouldBeImageCell))
      && (cfg.infoCellFrequency <= 0.0 ==> forall x :: x in g.config.infoCellIndices ==>
        cfg.largeCellPattern == Custom && x in cfg.customInfoCellIndices)
  {
    var g := Generate(products, cfg, categoryRank);
    var sorted := Sorted(products, cfg, categoryRank);
    var out := Mix;
    var n := CellCount(cfg);
    var items := Run(cfg, sorted, out, n).items;
    assert g.gridItems == items;
    RunLength(cfg, sorted, out, n);
    GenerateInfo(products, cfg, categoryRank);
    forall i | 0 <= i < n
      ensures !cfg.enableInfoCells ==> items[i].shouldBeImageCell
      ensures cfg.enableInfoCells && cfg.largeCellPattern == Custom && i in cfg.customInfoCellIndices && !items[i].isLargeCell
        ==> !items[i].shouldBeImageCell
      ensures cfg.infoCellFrequency <= 0.0 && !items[i].shouldBeImageCell ==> cfg.largeCellPattern == Custom && i in cfg.customInfoCellIndices
    {
      CellStays(cfg, sorted, out, n, i);
      CellRule(cfg, sorted, out, i);
    }
    if !cfg.enableInfoCells {
      RunInfo(cfg, sorted, out, n);
      InfoPositionsNone(items);
    }
    var info := g.config.infoCellIndices;
    forall k | 0 <= k < |info|
      ensures !items[info[k]].shouldBeImageCell
    {
      assert info[k] in info;
    }
  }

  /**
   * Spans: normal cells have none; a large cell spans 2 (`2x2`) or 3 (`3x3`)
   * and starts where `ColumnStart` says for the number of large cells so
   * far, this one included.
   */
  lemma GenerateSpans(products: seq<Product>, cfg: LayoutConfig, categoryRank: string -> real)
    requires |products| > 0
    ensures var g := Generate(products, cfg, categoryRank);
      forall i :: 0 <= i < |g.gridItems| ==>
        (if g.gridItems[i].isLargeCell
          then g.gridItems[i].span == Large(SpanSize(cfg.largeCellSize),
            ColumnStart(cfg.largeCellPattern, cfg.gridColumnCount, SpanSize(cfg.largeCellSize), i,
              |LargePositions(cfg.largeCellPattern, cfg.customLargeCellIndices, i + 1)|))
          else g.gridItems[i].span == Plain)
  {
    var sorted := Sorted(products, cfg, categoryRank);
    var out := Mix;
    var n := CellCount(cfg);
    var items := Run(cfg, sorted, out, n).items;
    RunLength(cfg, sorted, out, n);
    forall i | 0 <= i < n
      ensures items[i].isLargeCell ==> items[i].span == Large(SpanSize(cfg.largeCellSize),
        ColumnStart(cfg.largeCellPattern, cfg.gridColumnCount, SpanSize(cfg.largeCellSize), i,
          |LargePositions(cfg.largeCellPattern, cfg.customLargeCellIndices, i + 1)|))
      ensures !items[i].isLargeCell ==> items[i].span == Plain
    {
      CellStays(cfg, sorted, out, n, i);
      CellRule(cfg, sorted, out, i);
    }
  }

  /**
   * Every cell shows a product of the list: the one at its pick in the
   * sorted copy, and so one of the products given.
   */
  lemma GenerateProducts(products: seq<Product>, cfg: LayoutConfig, categoryRank: string -> real)
    requires |products| > 0
    ensures var g := Generate(products, cfg, categoryRank);
      var picks := ProductPicks(products, cfg, categoryRank);
      && |picks| == |g.gridItems|
      && forall i :: 0 <= i < |g.gridItems| ==>
        && picks[i] < |products|
        && g.gridItems[i].product == Sorted(products, cfg, categoryRank)[picks[i]]
        && g.gridItems[i].product in products
  {
    var sorted := Sorted(products, cfg, categoryRank);
    var out := Mix;
    var n := CellCount(cfg);
    var items := Run(cfg, sorted, out, n).items;
    RunLength(cfg, sorted, out, n);
    forall i | 0 <= i < n
      ensures Run(cfg, sorted, out, n).picks[i] < |products|
      ensures items[i].product == sorted[Run(cfg, sorted, out, n).picks[i]]
      ensures items[i].product in products
    {
      CellStays(cfg, sorted, out, n, i);
      CellRule(cfg, sorted, out, i);
      assert items[i].product in multiset(sorted);
    }
  }

  /** Without duplicates, a grid no larger than the product list never repeats a product index. */
  lemma GenerateNoRepeats(products: seq<Product>, cfg: LayoutConfig, categoryRank: string -> real)
    requires |products| > 0 && !cfg.allowDuplicateProducts && cfg.gridDensity <= |products|
    ensures var picks := ProductPicks(products, cfg, categoryRank);
      forall i, j :: 0 <= i < j < |picks| ==> picks[i] != picks[j]
  {
    var sorted := Sorted(products, cfg, categoryRank);
    var out := Mix;
    RunDistinct(cfg, sorted, out, CellCount(cfg));
  }

  /** One call advances its generator by one draw per cell plus one per image/info test taken, large cells included. */
  lemma GenerateDraws(products: seq<Product>, cfg: LayoutConfig, categoryRank: string -> real)
    requires |products| > 0
    ensures Run(cfg, Sorted(products, cfg, categoryRank), Mix, CellCount(cfg)).rng
      == Advance(SeedState(cfg.seed), DrawsBefore(cfg, CellCount(cfg)))
  {
    RunDraws(cfg, Sorted(products, cfg, categoryRank), Mix, CellCount(cfg));
  }

  // ---------------------------------------------------------------------------
  // Two consequences of the order of lines 88-91 and 114-118

  /** The default pattern on 12 cells makes cells 0, 5 and 10 large. */
  lemma DefaultTwelve()
    ensures LargePositions(Default, [], 12) == [0, 5, 10]
  {
    assert LargePositions(Default, [], 1) == [0];
    assert LargePositions(Default, [], 5) == [0];
    assert LargePositions(Default, [], 6) == [0, 5];
    assert LargePositions(Default, [], 10) == [0, 5];
    assert LargePositions(Default, [], 11) == [0, 5, 10];
  }

  /**
   * Under `alternate` the counter is incremented before the parity test, so
   * the first large cell (index 0) is right-aligned, not left-aligned.
   */
  lemma AlternateFirstIsRight(products: seq<Product>, cfg: LayoutConfig, categoryRank: string -> real)
    requires |products| > 0 && cfg.largeCellPattern == Alternate && cfg.gridDensity > 0
    ensures var g := Generate(products, cfg, categoryRank);
      && |g.gridItems| > 0
      && g.gridItems[0].isLargeCell
      && g.gridItems[0].span == Large(SpanSize(cfg.largeCellSize), Some(RightAligned(cfg.gridColumnCount, SpanSize(cfg.largeCellSize))))
  {
    GenerateShape(products, cfg, categoryRank);
    GenerateSpans(products, cfg, categoryRank);
    GenerateLarge(products, cfg, categoryRank);
    assert LargePositions(Alternate, cfg.customLargeCellIndices, 1) == [0];
  }
}
