/**
 * The grid computation of the `Home` page (src/App.tsx:197-232): the store's
 * settings are passed to `generateGridData`, which stores the configuration
 * it used back into the store through `setBentoGridConfig` (line 164). An
 * empty product list gives an empty grid and leaves the store alone
 * (line 201).
 */
module Home {
  import opened Layout
  import opened Catalog
  import opened Grid
  import opened GridProperties
  import opened Store

  /** The arguments of the call at lines 202-216, read from the store. */
  function LayoutOf(s: SettingsState): LayoutConfig {
    LayoutConfig(
      largeCellPattern := s.largeCellPattern,
      customLargeCellIndices := s.customLargeCellIndices,
      enableInfoCells := s.enableInfoCells,
      infoCellFrequency := s.infoCellFrequency,
      customInfoCellIndices := s.customInfoCellIndices,
      gridDensity := s.gridDensity,
      allowDuplicateProducts := s.allowDuplicateProducts,
      productSort := s.productSort,
      largeCellSize := s.largeCellSize,
      gridColumnCount := s.gridColumnCount,
      seed := s.seed)
  }

  /** The memoised `gridData` of lines 200-232 for the state `s`, and the state after it. */
  function HomeGridOf(products: seq<Product>, s: SettingsState, categoryRank: string -> real): (seq<GridItem>, SettingsState) {
    if |products| == 0 then ([], s)
    else
      var g := Generate(products, LayoutOf(s), categoryRank);
      (g.gridItems, Apply(s, SetBentoGridConfig(g.config)))
  }

  /**
   * Storing the configuration changes no input of the grid, so the grid
   * computed again from the new state is the same grid and the state stays
   * put: the write-back at line 164 does not start another round.
   */
  lemma HomeGridStable(products: seq<Product>, s: SettingsState, categoryRank: string -> real)
    ensures var (items, s1) := HomeGridOf(products, s, categoryRank);
      HomeGridOf(products, s1, categoryRank) == (items, s1)
  {
    if |products| > 0 {
      var g := Generate(products, LayoutOf(s), categoryRank);
      StoreConfig(s, g.config);
    }
  }

  /** Storing a configuration leaves the grid's inputs alone, and storing it again changes nothing. */
  lemma StoreConfig(s: SettingsState, config: BentoGridConfig)
    ensures var s1 := Apply(s, SetBentoGridConfig(config));
      && LayoutOf(s1) == LayoutOf(s)
      && Apply(s1, SetBentoGridConfig(config)) == s1
      && s1.bentoGridConfig == config
      && s1.(bentoGridConfig := s.bentoGridConfig) == s
  {
  }

  /**
   * For a non-empty product list the grid has as many cells as the store's
   * density, and the stored configuration records the store's seed, column
   * count and large-cell size.
   */
  lemma HomeGridShape(products: seq<Product>, s: SettingsState, categoryRank: string -> real)
    requires |products| > 0
    ensures var (items, s1) := HomeGridOf(products, s, categoryRank);
      && |items| == s.gridDensity
      && s1.bentoGridConfig.seed == s.seed
      && s1.bentoGridConfig.columnCount == s.gridColumnCount
      && s1.bentoGridConfig.largeCellSize == s.largeCellSize
      && s1.(bentoGridConfig := s.bentoGridConfig) == s
  {
    var g := Generate(products, LayoutOf(s), categoryRank);
    GenerateShape(products, LayoutOf(s), categoryRank);
    StoreConfig(s, g.config);
  }

  /** Lines 200-217 run against the store object. */
  method HomeGrid(products: seq<Product>, settings: Settings, categoryRank: string -> real)
    returns (gridData: seq<GridItem>)
    modifies settings
    ensures (gridData, settings.state) == HomeGridOf(products, old(settings.state), categoryRank)
  {
    if |products| == 0 {
      return [];
    }
    var config;
    gridData, config := GenerateGridData(products, LayoutOf(settings.state), categoryRank);
    settings.SetBentoGridConfig(config);
  }
}
