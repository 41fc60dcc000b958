/**
 * The persisted settings store (src/store.ts): one record of settings, and
 * one action per setter or toggle (lines 76-94), each replacing the record by
 * a copy with a single field changed.
 *
 * A zustand `set` merges a partial object into the current state, so each
 * action is modelled as a pure update `Apply` of the record; the class
 * `Settings` is the store object whose state the setters overwrite.
 */
module Store {
  import opened Layout
  import opened Grid

  datatype Theme = Dark | Light

  /** `gridDensity: 12 | 24 | 36`. */
  type GridDensity = d: int | d == 12 || d == 24 || d == 36 witness 24

  /** The data fields of `SettingsState` (lines 4-28). */
  datatype SettingsState = SettingsState(
    enableSkew: bool,
    skewIntensity: real,
    largeCellPattern: LargeCellPattern,
    customLargeCellIndices: seq<int>,
    enableInfoCells: bool,
    infoCellFrequency: real,
    customInfoCellIndices: seq<int>,
    enableZIndexRandomization: bool,
    enableInfoCellGradient: bool,
    infoCellGradientIntensity: real,
    allowDuplicateProducts: bool,
    theme: Theme,
    gridDensity: GridDensity,
    productSort: ProductSort,
    bentoGridConfig: BentoGridConfig,
    largeCellSize: LargeCellSize,
    gridColumnCount: ColumnCount,
    seed: int)

  /** The initial state of lines 58-75. */
  function Defaults(): SettingsState {
    SettingsState(
      enableSkew := true,
      skewIntensity := 1.0,
      largeCellPattern := Default,
      customLargeCellIndices := [],
      enableInfoCells := true,
      infoCellFrequency := 0.15,
      customInfoCellIndices := [],
      enableZIndexRandomization := true,
      enableInfoCellGradient := true,
      infoCellGradientIntensity := 1.0,
      allowDuplicateProducts := true,
      theme := Dark,
      gridDensity := 24,
      productSort := Random,
      bentoGridConfig := BentoGridConfig([], Size2x2, [], 0, 4),
      largeCellSize := Size2x2,
      gridColumnCount := 4,
      seed := 0)
  }

  function Max(a: real, b: real): real {
    if a >= b then a else b
  }

  function Min(a: real, b: real): real {
    if a <= b then a else b
  }

  /** `Math.max(0, Math.min(1, x))` (lines 77 and 86). */
  function ClampUnit(x: real): (r: real)
    ensures 0.0 <= r <= 1.0
    ensures 0.0 <= x <= 1.0 ==> r == x
    ensures x < 0.0 ==> r == 0.0
    ensures x > 1.0 ==> r == 1.0
  {
    Max(0.0, Min(1.0, x))
  }

  /** `Math.max(0, Math.min(0.5, x))` (line 81). */
  function ClampFrequency(x: real): (r: real)
    ensures 0.0 <= r <= 0.5
    ensures 0.0 <= x <= 0.5 ==> r == x
    ensures x < 0.0 ==> r == 0.0
    ensures x > 0.5 ==> r == 0.5
  {
    Max(0.0, Min(0.5, x))
  }

  /** The setters and toggles of lines 76-94, with their arguments. */
  datatype Action =
    | ToggleSkew
    | SetSkewIntensity(intensity: real)
    | SetLargeCellPattern(pattern: LargeCellPattern)
    | SetCustomLargeCellIndices(indices: seq<int>)
    | ToggleInfoCells
    | SetInfoCellFrequency(frequency: real)
    | SetCustomInfoCellIndices(infoIndices: seq<int>)
    | ToggleZIndexRandomization
    | ToggleInfoCellGradient
    | SetInfoCellGradientIntensity(gradientIntensity: real)
    | ToggleAllowDuplicateProducts
    | SetTheme(theme: Theme)
    | SetGridDensity(density: GridDensity)
    | SetProductSort(sort: ProductSort)
    | SetBentoGridConfig(config: BentoGridConfig)
    | SetLargeCellSize(size: LargeCellSize)
    | SetGridColumnCount(count: ColumnCount)
    | SetSeed(seed: int)

  /** The state after one action: the partial object each setter passes to `set`, merged into `s`. */
  function Apply(s: SettingsState, a: Action): SettingsState {
    match a
    case ToggleSkew => s.(enableSkew := !s.enableSkew)
    case SetSkewIntensity(x) => s.(skewIntensity := ClampUnit(x))
    case SetLargeCellPattern(p) => s.(largeCellPattern := p)
    case SetCustomLargeCellIndices(xs) => s.(customLargeCellIndices := xs)
    case ToggleInfoCells => s.(enableInfoCells := !s.enableInfoCells)
    case SetInfoCellFrequency(x) => s.(infoCellFrequency := ClampFrequency(x))
    case SetCustomInfoCellIndices(xs) => s.(customInfoCellIndices := xs)
    case ToggleZIndexRandomization => s.(enableZIndexRandomization := !s.enableZIndexRandomization)
    case ToggleInfoCellGradient => s.(enableInfoCellGradient := !s.enableInfoCellGradient)
    case SetInfoCellGradientIntensity(x) => s.(infoCellGradientIntensity := ClampUnit(x))
    case ToggleAllowDuplicateProducts => s.(allowDuplicateProducts := !s.allowDuplicateProducts)
    case SetTheme(t) => s.(theme := t)
    case SetGridDensity(d) => s.(gridDensity := d)
    case SetProductSort(o) => s.(productSort := o)
    case SetBentoGridConfig(c) => s.(bentoGridConfig := c)
    case SetLargeCellSize(z) => s.(largeCellSize := z)
    case SetGridColumnCount(c) => s.(gridColumnCount := c)
    case SetSeed(n) => s.(seed := n)
  }

  /** The names of the fields of the record. */
  datatype Field =
    | EnableSkew | SkewIntensity | LargeCellPatternField | CustomLargeCellIndices | EnableInfoCells
    | InfoCellFrequency | CustomInfoCellIndices | EnableZIndexRandomization | EnableInfoCellGradient
    | InfoCellGradientIntensity | AllowDuplicateProducts | ThemeField | GridDensityField | ProductSortField
    | BentoGridConfigField | LargeCellSizeField | GridColumnCount | Seed

  /** The one field an action writes. */
  function Target(a: Action): Field {
    match a
    case ToggleSkew => EnableSkew
    case SetSkewIntensity(_) => SkewIntensity
    case SetLargeCellPattern(_) => LargeCellPatternField
    case SetCustomLargeCellIndices(_) => CustomLargeCellIndices
    case ToggleInfoCells => EnableInfoCells
    case SetInfoCellFrequency(_) => InfoCellFrequency
    case SetCustomInfoCellIndices(_) => CustomInfoCellIndices
    case ToggleZIndexRandomization => EnableZIndexRandomization
    case ToggleInfoCellGradient => EnableInfoCellGradient
    case SetInfoCellGradientIntensity(_) => InfoCellGradientIntensity
    case ToggleAllowDuplicateProducts => AllowDuplicateProducts
    case SetTheme(_) => ThemeField
    case SetGridDensity(_) => GridDensityField
    case SetProductSort(_) => ProductSortField
    case SetBentoGridConfig(_) => BentoGridConfigField
    case SetLargeCellSize(_) => LargeCellSizeField
    case SetGridColumnCount(_) => GridColumnCount
    case SetSeed(_) => Seed
  }

  predicate IsToggle(a: Action) {
    a.ToggleSkew? || a.ToggleInfoCells? || a.ToggleZIndexRandomization? || a.ToggleInfoCellGradient? || a.ToggleAllowDuplicateProducts?
  }

  /** The fields in which two states differ. */
  function Changed(s: SettingsState, t: SettingsState): set<Field> {
    (if s.enableSkew != t.enableSkew then {EnableSkew} else {})
    + (if s.skewIntensity != t.skewIntensity then {SkewIntensity} else {})
    + (if s.largeCellPattern != t.largeCellPattern then {LargeCellPatternField} else {})
    + (if s.customLargeCellIndices != t.customLargeCellIndices then {CustomLargeCellIndices} else {})
    + (if s.enableInfoCells != t.enableInfoCells then {EnableInfoCells} else {})
    + (if s.infoCellFrequency != t.infoCellFrequency then {InfoCellFrequency} else {})
    + (if s.customInfoCellIndices != t.customInfoCellIndices then {CustomInfoCellIndices} else {})
    + (if s.enableZIndexRandomization != t.enableZIndexRandomization then {EnableZIndexRandomization} else {})
    + (if s.enableInfoCellGradient != t.enableInfoCellGradient then {EnableInfoCellGradient} else {})
    + (if s.infoCellGradientIntensity != t.infoCellGradientIntensity then {InfoCellGradientIntensity} else {})
    + (if s.allowDuplicateProducts != t.allowDuplicateProducts then {AllowDuplicateProducts} else {})
    + (if s.theme != t.theme then {ThemeField} else {})
    + (if s.gridDensity != t.gridDensity then {GridDensityField} else {})
    + (if s.productSort != t.productSort then {ProductSortField} else {})
    + (if s.bentoGridConfig != t.bentoGridConfig then {BentoGridConfigField} else {})
    + (if s.largeCellSize != t.largeCellSize then {LargeCellSizeField} else {})
    + (if s.gridColumnCount != t.gridColumnCount then {GridColumnCount} else {})
    + (if s.seed != t.seed then {Seed} else {})
  }

  /** The clamped fields lie in their ranges. */
  predicate Valid(s: SettingsState) {
    0.0 <= s.skewIntensity <= 1.0 && 0.0 <= s.infoCellFrequency <= 0.5 && 0.0 <= s.infoCellGradientIntensity <= 1.0
  }

  /** Every action changes at most its own field; a toggle always changes it. */
  lemma ApplyFrame(s: SettingsState, a: Action)
    ensures Changed(s, Apply(s, a)) <= {Target(a)}
    ensures IsToggle(a) ==> Changed(s, Apply(s, a)) == {Target(a)}
    ensures Changed(s, Apply(s, a)) == {} <==> Apply(s, a) == s
  {
  }

  /** The initial state satisfies the ranges, and every action keeps them. */
  lemma ApplyValid(s: SettingsState, a: Action)
    ensures Valid(Defaults())
    ensures Valid(s) ==> Valid(Apply(s, a))
  {
  }

  /** Applying a toggle twice restores the state. */
  lemma ToggleTwice(s: SettingsState, a: Action)
    requires IsToggle(a)
    ensures Apply(Apply(s, a), a) == s
  {
  }

  /**
   * Applying a setter twice is applying it once; in particular setting a
   * clamped field to the value it holds changes nothing.
   */
  lemma SetIdempotent(s: SettingsState, a: Action)
    requires !IsToggle(a)
    ensures Apply(Apply(s, a), a) == Apply(s, a)
    ensures Valid(s) && a.SetSkewIntensity? && a.intensity == s.skewIntensity ==> Apply(s, a) == s
    ensures Valid(s) && a.SetInfoCellFrequency? && a.frequency == s.infoCellFrequency ==> Apply(s, a) == s
    ensures Valid(s) && a.SetInfoCellGradientIntensity? && a.gradientIntensity == s.infoCellGradientIntensity ==> Apply(s, a) == s
  {
  }

  /** The unclamped setters store their argument as given (lines 78-79, 82, 88-94). */
  lemma SetStores(s: SettingsState, a: Action)
    ensures a.SetLargeCellPattern? ==> Apply(s, a).largeCellPattern == a.pattern
    ensures a.SetCustomLargeCellIndices? ==> Apply(s, a).customLargeCellIndices == a.indices
    ensures a.SetCustomInfoCellIndices? ==> Apply(s, a).customInfoCellIndices == a.infoIndices
    ensures a.SetTheme? ==> Apply(s, a).theme == a.theme
    ensures a.SetGridDensity? ==> Apply(s, a).gridDensity == a.density
    ensures a.SetProductSort? ==> Apply(s, a).productSort == a.sort
    ensures a.SetBentoGridConfig? ==> Apply(s, a).bentoGridConfig == a.config
    ensures a.SetLargeCellSize? ==> Apply(s, a).largeCellSize == a.size
    ensures a.SetGridColumnCount? ==> Apply(s, a).gridColumnCount == a.count
    ensures a.SetSeed? ==> Apply(s, a).seed == a.seed
  {
  }

  /** The store object returned by `useSettingsStore`. */
  class Settings {
    var state: SettingsState

    constructor ()
      ensures state == Defaults()
      ensures Valid(state)
    {
      state := Defaults();
    }

    method ToggleSkew()
      modifies this
      ensures state == Apply(old(state), Action.ToggleSkew)
    {
      state := state.(enableSkew := !state.enableSkew);
    }

    method SetSkewIntensity(intensity: real)
      modifies this
      ensures state == Apply(old(state), Action.SetSkewIntensity(intensity))
    {
      state := state.(skewIntensity := Max(0.0, Min(1.0, intensity)));
    }

    method SetLargeCellPattern(pattern: LargeCellPattern)
      modifies this
      ensures state == Apply(old(state), Action.SetLargeCellPattern(pattern))
    {
      state := state.(largeCellPattern := pattern);
    }

    method SetCustomLargeCellIndices(indices: seq<int>)
      modifies this
      ensures state == Apply(old(state), Action.SetCustomLargeCellIndices(indices))
    {
      state := state.(customLargeCellIndices := indices);
    }

    method ToggleInfoCells()
      modifies this
      ensures state == Apply(old(state), Action.ToggleInfoCells)
    {
      state := state.(enableInfoCells := !state.enableInfoCells);
    }

    method SetInfoCellFrequency(frequency: real)
      modifies this
      ensures state == Apply(old(state), Action.SetInfoCellFrequency(frequency))
    {
      state := state.(infoCellFrequency := Max(0.0, Min(0.5, frequency)));
    }

    method SetCustomInfoCellIndices(indices: seq<int>)
      modifies this
      ensures state == Apply(old(state), Action.SetCustomInfoCellIndices(indices))
    {
      state := state.(customInfoCellIndices := indices);
    }

    method ToggleZIndexRandomization()
      modifies this
      ensures state == Apply(old(state), Action.ToggleZIndexRandomization)
    {
      state := state.(enableZIndexRandomization := !state.enableZIndexRandomization);
    }

    method ToggleInfoCellGradient()
      modifies this
      ensures state == Apply(old(state), Action.ToggleInfoCellGradient)
    {
      state := state.(enableInfoCellGradient := !state.enableInfoCellGradient);
    }

    method SetInfoCellGradientIntensity(intensity: real)
      modifies this
      ensures state == Apply(old(state), Action.SetInfoCellGradientIntensity(intensity))
    {
      state := state.(infoCellGradientIntensity := Max(0.0, Min(1.0, intensity)));
    }

    method ToggleAllowDuplicateProducts()
      modifies this
      ensures state == Apply(old(state), Action.ToggleAllowDuplicateProducts)
    {
      state := state.(allowDuplicateProducts := !state.allowDuplicateProducts);
    }

    method SetTheme(theme: Theme)
      modifies this
      ensures state == Apply(old(state), Action.SetTheme(theme))
    {
      state := state.(theme := theme);
    }

    method SetGridDensity(density: GridDensity)
      modifies this
      ensures state == Apply(old(state), Action.SetGridDensity(density))
    {
      state := state.(gridDensity := density);
    }

    method SetProductSort(sort: ProductSort)
      modifies this
      ensures state == Apply(old(state), Action.SetProductSort(sort))
    {
      state := state.(productSort := sort);
    }

    method SetBentoGridConfig(config: BentoGridConfig)
      modifies this
      ensures state == Apply(old(state), Action.SetBentoGridConfig(config))
    {
      state := state.(bentoGridConfig := config);
    }

    method SetLargeCellSize(size: LargeCellSize)
      modifies this
      ensures state == Apply(old(state), Action.SetLargeCellSize(size))
    {
      state := state.(largeCellSize := size);
    }

    method SetGridColumnCount(count: ColumnCount)
      modifies this
      ensures state == Apply(old(state), Action.SetGridColumnCount(count))
    {
      state := state.(gridColumnCount := count);
    }

    method SetSeed(seed: int)
      modifies this
      ensures state == Apply(old(state), Action.SetSeed(seed))
    {
      state := state.(seed := seed);
    }
  }
}
