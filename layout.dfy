/**
 * The per-index decisions of `generateGridData` (src/App.tsx:79-132): which
 * cells are large, which are image cells and where a large cell starts.
 */
module Layout {
  import opened Wrappers
  import opened Prng

  datatype LargeCellPattern = Default | Alternate | Custom
  datatype LargeCellSize = Size2x2 | Size3x3
  datatype ProductSort = Random | PriceAsc | PriceDesc | Category

  /** `gridColumnCount: 2 | 4 | 6`. */
  type ColumnCount = c: int | c == 2 || c == 4 || c == 6 witness 4

  /** The parameters `generateGridData` receives (src/App.tsx:41-53), without the product list and the callback. */
  datatype LayoutConfig = LayoutConfig(
    largeCellPattern: LargeCellPattern,
    customLargeCellIndices: seq<int>,
    enableInfoCells: bool,
    infoCellFrequency: real,
    customInfoCellIndices: seq<int>,
    gridDensity: int,
    allowDuplicateProducts: bool,
    productSort: ProductSort,
    largeCellSize: LargeCellSize,
    gridColumnCount: ColumnCount,
    seed: int)

  /**
   * The `spanClasses` string in structured form: empty for a normal cell,
   * `col-span-s row-span-s` plus an optional `col-start-c` for a large one.
   */
  datatype Span = Plain | Large(size: nat, colStart: Option<int>)

  /** The side of a large cell, `largeCellSize === '2x2' ? 2 : 3` (line 112). */
  function SpanSize(size: LargeCellSize): nat {
    if size == Size2x2 then 2 else 3
  }

  /** Lines 81-87. */
  predicate IsLarge(pattern: LargeCellPattern, customLargeCellIndices: seq<int>, index: int) {
    if pattern == Custom then index in customLargeCellIndices
    else if pattern == Default then index % 5 == 0
    else index % 3 == 0
  }

  /** The right-aligned start, `Math.max(1, gridColumnCount - spanSize + 1)`. */
  function RightAligned(columns: int, span: int): int {
    if columns - span + 1 > 1 then columns - span + 1 else 1
  }

  /**
   * The `col-start` of a large cell (lines 114-131); `counter` is the number
   * of large cells so far, this one included.
   */
  function ColumnStart(pattern: LargeCellPattern, columns: ColumnCount, span: nat, index: nat, counter: nat): (r: Option<int>)
    ensures r.None? <==> pattern == Default
    ensures r.Some? ==> 1 <= r.value
    ensures pattern == Alternate ==> r == Some(if counter % 2 == 0 then 1 else RightAligned(columns, span))
    ensures pattern == Custom && span <= columns ==> r.value + span - 1 <= columns
    ensures pattern == Custom && index % columns + span <= columns ==> r == Some(index % columns + 1)
    ensures pattern == Custom && index % columns + span > columns ==> r == Some(RightAligned(columns, span))
  {
    match pattern
    case Default => None
    case Alternate =>
      var isLeft := counter % 2 == 0;
      Some(if isLeft then 1 else RightAligned(columns, span))
    case Custom =>
      var colStart := index % columns + 1;
      if colStart + span - 1 <= columns then Some(colStart) else Some(RightAligned(columns, span))
  }

  /** Whether the image/info test at line 99 draws from the generator. */
  predicate InfoDrawTaken(cfg: LayoutConfig, index: int) {
    cfg.enableInfoCells && !(cfg.largeCellPattern == Custom && index in cfg.customInfoCellIndices)
  }

  datatype ImageDraw = ImageDraw(isImage: bool, rng: U32)

  /**
   * Lines 94-101: the image/info decision before the large-cell override,
   * and the generator state after it, for a generator whose call maps its
   * advanced state to the 32-bit output `out` (`Mix` for `mulberry32`).
   * Large cells are decided the same way.
   */
  function ImageDecision(cfg: LayoutConfig, index: int, rng: U32, out: U32 -> U32): (r: ImageDraw)
    ensures r.rng == Advance(rng, if InfoDrawTaken(cfg, index) then 1 else 0)
    ensures !cfg.enableInfoCells ==> r.isImage
    ensures cfg.enableInfoCells && cfg.largeCellPattern == Custom && index in cfg.customInfoCellIndices ==> !r.isImage
    ensures cfg.infoCellFrequency <= 0.0 && !r.isImage ==> cfg.largeCellPattern == Custom && index in cfg.customInfoCellIndices
    ensures InfoDrawTaken(cfg, index) ==>
      (r.isImage <==> Fraction(out(Advance(rng, 1))) < 1.0 - cfg.infoCellFrequency)
  {
    if !cfg.enableInfoCells then ImageDraw(true, rng)
    else if cfg.largeCellPattern == Custom && index in cfg.customInfoCellIndices then ImageDraw(false, rng)
    else
      var next := Advance(rng, 1);
      ImageDraw(Fraction(out(next)) < 1.0 - cfg.infoCellFrequency, next)
  }
}
