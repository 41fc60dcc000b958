/**
 * `generateGridData` (src/App.tsx:41-167): the functional reference `Run`,
 * the imperative method `GenerateGridData` proved equal to it, and the
 * properties of the generated grid.
 */
module Grid {
  import opened Wrappers
  import opened Text
  import opened Prng
  import opened Layout
  import opened Catalog
  import opened Selection

  /** One cell of `gridItems`; `span` is the structured `spanClasses`. */
  datatype GridItem = GridItem(cellKey: string, isLargeCell: bool, shouldBeImageCell: bool, span: Span, product: Product)

  /** The record passed to `setBentoGridConfig` at line 164. */
  datatype BentoGridConfig = BentoGridConfig(
    largeCellIndices: seq<int>,
    largeCellSize: LargeCellSize,
    infoCellIndices: seq<int>,
    seed: int,
    columnCount: ColumnCount)

  datatype Generated = Generated(gridItems: seq<GridItem>, config: BentoGridConfig)

  /** `cell-${index}` (line 152). */
  function CellKey(index: nat): string {
    "cell-" + NatToString(index)
  }

  lemma CellKeyInjective(i: nat, j: nat)
    ensures CellKey(i) == CellKey(j) ==> i == j
  {
    if CellKey(i) == CellKey(j) {
      assert NatToString(i) == CellKey(i)[5..];
      assert NatToString(j) == CellKey(j)[5..];
      NatToStringInjective(i, j);
    }
  }

  /** The loop's variables after some iterations, with the chosen product indices (`picks`) kept for the proofs. */
  datatype GenState = GenState(
    rng: U32,
    used: set<nat>,
    largeCellCounter: nat,
    items: seq<GridItem>,
    picks: seq<nat>,
    largeCellIndices: seq<int>,
    infoCellIndices: seq<int>)

  /** The state before the loop (lines 62-67). */
  function Start(cfg: LayoutConfig): GenState {
    GenState(SeedState(cfg.seed), {}, 0, [], [], [], [])
  }

  /** One iteration of the loop body (lines 80-160) for cell `index`. */
  function Step(cfg: LayoutConfig, sorted: seq<Product>, out: U32 -> U32, st: GenState, index: nat): GenState
    requires |sorted| > 0
  {
    var isLargeCell := IsLarge(cfg.largeCellPattern, cfg.customLargeCellIndices, index);
    var largeCellIndices := if isLargeCell then st.largeCellIndices + [index] else st.largeCellIndices;
    var largeCellCounter := if isLargeCell then st.largeCellCounter + 1 else st.largeCellCounter;
    var decision := ImageDecision(cfg, index, st.rng, out);
    var shouldBeImageCell := isLargeCell || decision.isImage;
    var infoCellIndices := if !shouldBeImageCell then st.infoCellIndices + [index] else st.infoCellIndices;
    var spanSize := SpanSize(cfg.largeCellSize);
    var span := if isLargeCell
      then Large(spanSize, ColumnStart(cfg.largeCellPattern, cfg.gridColumnCount, spanSize, index, largeCellCounter))
      else Plain;
    var pick := SelectProduct(cfg.allowDuplicateProducts, |sorted|, st.used, decision.rng, out);
    var item := GridItem(CellKey(index), isLargeCell, shouldBeImageCell, span, sorted[pick.index]);
    GenState(pick.rng, pick.used, largeCellCounter, st.items + [item], st.picks + [pick.index], largeCellIndices, infoCellIndices)
  }

  /** The state after the first `n` iterations over the sorted products, with `out` the generator's output function. */
  function Run(cfg: LayoutConfig, sorted: seq<Product>, out: U32 -> U32, n: nat): GenState
    requires |sorted| > 0
    decreases n, 0
  {
    if n == 0 then Start(cfg) else After(cfg, sorted, out, n - 1)
  }

  /** The state right after the iteration for `index`. */
  function After(cfg: LayoutConfig, sorted: seq<Product>, out: U32 -> U32, index: nat): GenState
    requires |sorted| > 0
    decreases index, 1
  {
    Step(cfg, sorted, out, Run(cfg, sorted, out, index), index)
  }

  /** `Step` in terms of its image decision and its pick, so that the loop need not unfold the draws. */
  lemma StepIs(cfg: LayoutConfig, sorted: seq<Product>, out: U32 -> U32, st: GenState, index: nat, decision: ImageDraw, pick: Pick, item: GridItem)
    requires |sorted| > 0
    requires decision == ImageDecision(cfg, index, st.rng, out)
    requires pick == SelectProduct(cfg.allowDuplicateProducts, |sorted|, st.used, decision.rng, out)
    requires var isLargeCell := IsLarge(cfg.largeCellPattern, cfg.customLargeCellIndices, index);
      var spanSize := SpanSize(cfg.largeCellSize);
      item == GridItem(CellKey(index), isLargeCell, isLargeCell || decision.isImage,
        if isLargeCell then Large(spanSize, ColumnStart(cfg.largeCellPattern, cfg.gridColumnCount, spanSize, index, st.largeCellCounter + 1)) else Plain,
        sorted[pick.index])
    ensures var isLargeCell := IsLarge(cfg.largeCellPattern, cfg.customLargeCellIndices, index);
      Step(cfg, sorted, out, st, index) == GenState(pick.rng, pick.used,
        if isLargeCell then st.largeCellCounter + 1 else st.largeCellCounter,
        st.items + [item], st.picks + [pick.index],
        if isLargeCell then st.largeCellIndices + [index] else st.largeCellIndices,
        if !(isLargeCell || decision.isImage) then st.infoCellIndices + [index] else st.infoCellIndices)
  {
  }

  lemma RunNext(cfg: LayoutConfig, sorted: seq<Product>, out: U32 -> U32, n: nat)
    requires |sorted| > 0
    ensures Run(cfg, sorted, out, n + 1) == Step(cfg, sorted, out, Run(cfg, sorted, out, n), n)
  {
    assert Run(cfg, sorted, out, n + 1) == After(cfg, sorted, out, n);
  }

  /** The number of iterations of `for (index = 0; index < gridDensity; index++)`. */
  function CellCount(cfg: LayoutConfig): nat {
    if cfg.gridDensity > 0 then cfg.gridDensity else 0
  }

  /** The result and the summary of one call. */
  function Generate(products: seq<Product>, cfg: LayoutConfig, categoryRank: string -> real): Generated
    requires |products| > 0
  {
    SortProductsPermutes(products, cfg.productSort, categoryRank);
    var sorted := SortProducts(products, cfg.productSort, categoryRank);
    var st := Run(cfg, sorted, Mix, CellCount(cfg));
    Generated(st.items, BentoGridConfig(st.largeCellIndices, cfg.largeCellSize, st.infoCellIndices, cfg.seed, cfg.gridColumnCount))
  }

  /** The index of the product chosen for each cell, in the sorted list. */
  function ProductPicks(products: seq<Product>, cfg: LayoutConfig, categoryRank: string -> real): seq<nat>
    requires |products| > 0
  {
    SortProductsPermutes(products, cfg.productSort, categoryRank);
    Run(cfg, SortProducts(products, cfg.productSort, categoryRank), Mix, CellCount(cfg)).picks
  }

  // ---------------------------------------------------------------------------
  // The imperative generator

  method GenerateGridData(products: seq<Product>, cfg: LayoutConfig, categoryRank: string -> real)
    returns (gridItems: seq<GridItem>, config: BentoGridConfig)
    requires |products| > 0
    ensures Generated(gridItems, config) == Generate(products, cfg, categoryRank)
  {
    gridItems := [];
    var largeCellCounter := 0;
    var largeCellIndices: seq<int> := [];
    var infoCellIndices: seq<int> := [];
    var usedProductIndices: set<nat> := {};
    var random := new Mulberry32(cfg.seed);
    // `[...products]` sorted by the library sort of lines 71-77 (stable, by the comparator's key)
    var sortedProducts := SortProducts(products, cfg.productSort, categoryRank);
    SortProductsPermutes(products, cfg.productSort, categoryRank);
    ghost var picks: seq<nat> := [];

    var index := 0;
    while index < cfg.gridDensity
      invariant 0 <= index <= CellCount(cfg)
      invariant Run(cfg, sortedProducts, Mix, index)
        == GenState(random.state, usedProductIndices, largeCellCounter, gridItems, picks, largeCellIndices, infoCellIndices)
    {
      ghost var before := Run(cfg, sortedProducts, Mix, index);
      var item, productIndex;
      item, productIndex, largeCellCounter, largeCellIndices, infoCellIndices, usedProductIndices :=
        GenerateCell(cfg, sortedProducts, index, random, before, largeCellCounter, largeCellIndices, infoCellIndices, usedProductIndices);
      gridItems := gridItems + [item];
      picks := picks + [productIndex];
      RunNext(cfg, sortedProducts, Mix, index);
      index := index + 1;
    }
    assert index == CellCount(cfg);
    config := BentoGridConfig(largeCellIndices, cfg.largeCellSize, infoCellIndices, cfg.seed, cfg.gridColumnCount);
  }

  /** The loop body (lines 80-160) for cell `index`: the new item, the chosen product index and the updated loop variables. */
  method GenerateCell(cfg: LayoutConfig, sortedProducts: seq<Product>, index: nat, random: Mulberry32, ghost before: GenState,
                      largeCellCounter0: nat, largeCellIndices0: seq<int>, infoCellIndices0: seq<int>, usedProductIndices0: set<nat>)
    returns (item: GridItem, productIndex: nat, largeCellCounter: nat, largeCellIndices: seq<int>, infoCellIndices: seq<int>, usedProductIndices: set<nat>)
    requires |sortedProducts| > 0
    requires before.rng == random.state && before.used == usedProductIndices0 && before.largeCellCounter == largeCellCounter0
    requires before.largeCellIndices == largeCellIndices0 && before.infoCellIndices == infoCellIndices0
    modifies random
    ensures Step(cfg, sortedProducts, Mix, before, index)
      == GenState(random.state, usedProductIndices, largeCellCounter, before.items + [item], before.picks + [productIndex], largeCellIndices, infoCellIndices)
  {
    ghost var r0 := random.state;
    largeCellCounter, largeCellIndices, infoCellIndices, usedProductIndices := largeCellCounter0, largeCellIndices0, infoCellIndices0, usedProductIndices0;

    // Large or not (lines 81-91)
    var isLargeCell := IsLarge(cfg.largeCellPattern, cfg.customLargeCellIndices, index);
    if isLargeCell {
      largeCellIndices := largeCellIndices + [index];
      largeCellCounter := largeCellCounter + 1;
    }

    // Image or info (lines 94-107)
    var shouldBeImageCell := DecideImageCell(cfg, index, random);
    ghost var decision := ImageDecision(cfg, index, r0, Mix);
    assert decision == ImageDraw(shouldBeImageCell, random.state);
    ghost var r1 := random.state;
    if isLargeCell {
      shouldBeImageCell := true;
    } else if !shouldBeImageCell {
      infoCellIndices := infoCellIndices + [index];
    }

    // Span and column start (lines 110-132)
    var spanClasses := Plain;
    if isLargeCell {
      var spanSize := SpanSize(cfg.largeCellSize);
      spanClasses := Large(spanSize, ColumnStart(cfg.largeCellPattern, cfg.gridColumnCount, spanSize, index, largeCellCounter));
    }

    // Product (lines 135-149)
    ghost var used0 := usedProductIndices;
    productIndex, usedProductIndices := PickProduct(cfg.allowDuplicateProducts, |sortedProducts|, usedProductIndices, random);
    ghost var pick := SelectProduct(cfg.allowDuplicateProducts, |sortedProducts|, used0, r1, Mix);
    assert pick == Pick(productIndex, usedProductIndices, random.state);

    item := GridItem(CellKey(index), isLargeCell, shouldBeImageCell, spanClasses, sortedProducts[productIndex]);
    assert shouldBeImageCell == (isLargeCell || decision.isImage);
    assert largeCellCounter == if isLargeCell then before.largeCellCounter + 1 else before.largeCellCounter;
    assert pick.index == productIndex;
    StepIs(cfg, sortedProducts, Mix, before, index, decision, pick, item);
  }

  /** Lines 94-101, drawing from `random` when the test applies. */
  method DecideImageCell(cfg: LayoutConfig, index: nat, random: Mulberry32) returns (shouldBeImageCell: bool)
    modifies random
    ensures ImageDecision(cfg, index, old(random.state), Mix) == ImageDraw(shouldBeImageCell, random.state)
  {
    shouldBeImageCell := true;
    if cfg.enableInfoCells {
      if cfg.largeCellPattern == Custom && index in cfg.customInfoCellIndices {
        shouldBeImageCell := false;
      } else {
        var u := random.Next();
        shouldBeImageCell := Fraction(u) < 1.0 - cfg.infoCellFrequency;
      }
    }
  }

  /** Lines 135-149 on the set of used indices, drawing once from `random`. */
  method PickProduct(allowDuplicateProducts: bool, n: nat, used: set<nat>, random: Mulberry32)
    returns (productIndex: nat, usedProductIndices: set<nat>)
    requires n > 0
    modifies random
    ensures SelectProduct(allowDuplicateProducts, n, used, old(random.state), Mix) == Pick(productIndex, usedProductIndices, random.state)
  {
    usedProductIndices := used;
    if allowDuplicateProducts {
      var u := random.Next();
      productIndex := FloorScaled(u, n);
    } else {
      var availableIndices := Available(n, usedProductIndices);
      if |availableIndices| == 0 {
        usedProductIndices := {};
        var u := random.Next();
        productIndex := FloorScaled(u, n);
      } else {
        var u := random.Next();
        productIndex := availableIndices[FloorScaled(u, |availableIndices|)];
      }
      usedProductIndices := usedProductIndices + {productIndex};
    }
  }
}
