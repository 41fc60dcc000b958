# Litt bento grid — a Dafny model

Litt is a product gallery. Its home page lays products out on a
"bento" grid. That grid is a deterministic function of a seed and a
handful of settings. This project models the parts that decide the grid,
together with the state the user edits.

- **`mulberry32`** (`src/App.tsx`) is the seedable 32-bit generator. It is
  modelled as the class `Prng.Mulberry32`, whose `state` field each `Next`
  call advances by `0x6D2B79F5` modulo 2^32. JavaScript keeps that counter
  as an unwrapped double, which agrees with the wrapped counter for the
  first few million calls (see "Left out"). The output mixing is modelled
  bit-exactly on 32-bit naturals: `Math.imul`, unsigned `>>>`, `^` and `|`.
  A draw `u` stands for the float `u / 2^32`. `Math.floor(r * n)` is the
  exact integer `(u * n) div 2^32`.
- **`generateGridData`** (`src/App.tsx`) is modelled as the imperative
  method `Grid.GenerateGridData`. Its loop invariant ties the loop
  variables to the functional run `Grid.Run`. The lemmas of
  `GridProperties` then state what the grid is:
  - its size and keys;
  - the large-cell rule and the image/info rule;
  - the spans and column starts;
  - the product choice and the duplicate policy;
  - the number of draws;
  - the summary record passed to `setBentoGridConfig`.

  The pure decisions live in `Layout` (large cell, column start, image/info
  draw), `Selection` (the product draw) and `Catalog` (the sort).
- **`getRandomSkew` and the image-cell style** (`src/App.tsx`) are modelled
  in `Styles`. They draw from the page's own generator, not from the
  generation stream.
- **The settings store** (`src/store.ts`) is modelled in `Store`. A record
  `SettingsState` holds the settings, and an `Action` per setter or toggle
  updates it through the pure `Apply`. The class `Settings` has one method
  per setter, and each method is proved to perform that update.
- **The settings modal's text fields** (`src/components/Header.tsx`) are
  modelled in `Header`. The two index-list fields are parsed as
  `split(',')`, then `parseInt(trim)`, then a filter. The seed field is
  parsed as `parseInt(value) || 0`. The string functions used by the
  parser are in `Text`.
- **The image carousel** (`src/components/ProductCard.tsx`) is modelled in
  `Carousel`. It follows JavaScript's truncating, NaN-producing `%`.
- **The home page's use of the generator** (`src/App.tsx`) is modelled in
  `Home`. An empty product list gives an empty grid. Otherwise the page
  generates the grid and stores the summary back into the store.

Behaviour of the code worth knowing:
- With `infoCellFrequency = 0`, the test `r < 1 - 0` always holds, so no
  random info cell appears. Only listed custom info cells do; see
  `Layout.ImageDecision` and `GridProperties.GenerateImageRule`.
- The skew and z-index draws come from the separate generator
  `mulberry32(seed)` of `src/App.tsx:197`, not from the stream that builds
  the grid.
- `generateGridData` has no error results: no invalid-configuration error
  and no empty-catalogue error. The only guard is the caller's check for
  an empty product list at `src/App.tsx:201`, modelled in `Home.HomeGrid`.
- Under the `alternate` pattern, the counter is incremented (line 90)
  before its parity is tested (line 115). The first large cell is
  therefore right-aligned; see `GridProperties.AlternateFirstIsRight`.

## Model

| member | source | states |
|---|---|---|
| Prng.Mulberry32.constructor | src/App.tsx:12-13 | the closure's counter starts at the seed taken modulo 2^32 |
| Prng.Mulberry32.Next | src/App.tsx:13-18 | one call adds `0x6D2B79F5` to the counter modulo 2^32, and returns the mix of the new counter |
| Prng.ShiftRight | src/App.tsx:15-17 | an unsigned right shift never increases a uint32 |
| Prng.ShiftRightValue | src/App.tsx:15-17 | `a >>> s` is `a` divided by 2^s and rounded down |
| Prng.Imul | src/App.tsx:15-16 | definition: `Math.imul(a, b)` read as unsigned, the product modulo 2^32 |
| Prng.Add32 | src/App.tsx:16 | definition: `t + Math.imul(...)` converted back to 32 bits, the sum modulo 2^32 |
| Prng.Xor | src/App.tsx:15-17 | definition: `^` on 32-bit values, bit by bit |
| Prng.Or | src/App.tsx:15-16 | definition: `\|` on 32-bit values, bit by bit |
| Prng.SeedState | src/App.tsx:12-13 | definition: the counter a seed stands for, ToUint32, the seed modulo 2^32 |
| Prng.Mix | src/App.tsx:14-17 | definition: the three mixing lines applied to the advanced counter, giving the unsigned result before the division by 2^32 |
| Prng.AdvanceAdd | src/App.tsx:14 | `a` calls followed by `b` calls advance the counter like `a + b` calls |
| Prng.AdvancePeriod | src/App.tsx:14 | the wrapped 32-bit counter of the model returns to its start after 2^32 calls; the JavaScript counter is a double and agrees with it only below 2^53 |
| Prng.Fraction | src/App.tsx:17 | the value `u / 4294967296` of a call lies in [0, 1) |
| Prng.FloorScaled | src/App.tsx:137 | `Math.floor(random() * n)` is an index below `n` |
| Prng.FloorScaledIsFloor | src/App.tsx:137 | the integer `(u * n) div 2^32` is exactly the floor of `(u / 2^32) * n` |
| Layout.InfoDrawTaken | src/App.tsx:95-99 | definition: the image/info test draws exactly when info cells are on and the index is not a listed custom info index |
| Layout.ColumnStart | src/App.tsx:114-131 | default: no column start. Alternate: column 1 for an even counter, else `max(1, cols - span + 1)`. Custom: `index % cols + 1` if the cell fits, else the right-aligned start, so the cell stays inside the grid whenever `span <= cols` |
| Layout.ImageDecision | src/App.tsx:93-101 | info cells disabled: an image cell and no draw. A listed custom info index: an info cell and no draw. Otherwise exactly one draw, and an image cell iff `r < 1 - infoCellFrequency`. With frequency 0 only listed indices become info cells |
| Layout.IsLarge | src/App.tsx:81-87 | definition: custom makes the listed indices large, default every index divisible by 5, alternate every index divisible by 3 |
| Layout.SpanSize | src/App.tsx:112 | definition: `2x2` spans 2, `3x3` spans 3 |
| Layout.RightAligned | src/App.tsx:117 | definition: the start `Math.max(1, gridColumnCount - spanSize + 1)` |
| Selection.Available | src/App.tsx:139-141 | definition: the unused indices below `n` in ascending order, as `availableIndices` builds them |
| Selection.AvailableSpec | src/App.tsx:139-141 | `availableIndices` holds exactly the unused indices below `n`, ascending |
| Selection.SelectProduct | src/App.tsx:134-149 | exactly one draw, and the chosen index is below `n`. Duplicates allowed: the used set is unchanged. Otherwise the pick is an unused index that is then added; on exhaustion the set is cleared and holds only the new pick |
| Selection.Below | src/App.tsx:139-140 | the indices `0..n-1` of the sorted list form a set of size `n` |
| Selection.ExhaustedByCount | src/App.tsx:142 | `availableIndices` is empty exactly when the used set holds `n` indices |
| Catalog.SortKey | src/App.tsx:71-76 | definition: the price for the price orders (negated for `price-desc`), the rank of `category \|\| ''` for `category` |
| Catalog.Insert | src/App.tsx:70-77 | definition: one insertion step, placing a product after every element whose key is not greater |
| Catalog.InsertionSort | src/App.tsx:70-77 | definition: the stable sort by key, one insertion per element from the front |
| Catalog.SortProducts | src/App.tsx:70-77 | definition: `random` keeps the copy as it is; the other orders sort it by their key |
| Catalog.InsertPermutes | src/App.tsx:70-77 | one insertion step adds exactly the inserted product |
| Catalog.InsertionSortPermutes | src/App.tsx:70-77 | the stable sort only reorders |
| Catalog.InsertSorted | src/App.tsx:70-77 | inserting into a key-ordered list keeps it ordered |
| Catalog.InsertElements | src/App.tsx:70-77 | an insertion holds only the new product and the old ones |
| Catalog.InsertionSortSorted | src/App.tsx:70-77 | the sorted list is ordered by the comparator's key |
| Catalog.SortProductsPermutes | src/App.tsx:70-77 | `sortedProducts` is a permutation of `products` |
| Catalog.SortProductsOrders | src/App.tsx:70-77 | `price-asc` gives non-decreasing prices and `price-desc` non-increasing ones. `category` gives non-decreasing category ranks. `random` keeps the input order |
| Catalog.InsertKeyFilter | src/App.tsx:70-77 | an insertion step keeps the products of each key in order, the inserted one last |
| Catalog.InsertionSortStable | src/App.tsx:70-77 | for every key, the products with that key appear in the sorted list in their input order |
| Catalog.SortProductsStable | src/App.tsx:70-77 | products the comparator calls equal keep their input order in `sortedProducts` |
| Grid.CellKey | src/App.tsx:152 | definition: the key `cell-${index}` |
| Grid.Start | src/App.tsx:62-67 | definition: the state before the loop: the generator seeded with `seed`, an empty used set, counter 0 and empty lists |
| Grid.Step | src/App.tsx:80-160 | definition: one iteration of the loop body for cell `index` |
| Grid.Run | src/App.tsx:79-161 | definition: the loop's variables after the first `n` iterations |
| Grid.Generate | src/App.tsx:41-167 | definition: the grid and the summary of one call, from the sorted products and the generator seeded with `seed` |
| Grid.CellKeyInjective | src/App.tsx:152 | different indices get different `cell-${index}` keys |
| Grid.GenerateGridData | src/App.tsx:41-167 | the loop's `gridItems` and the record passed to `setBentoGridConfig` are exactly the functional run over the sorted products |
| Grid.GenerateCell | src/App.tsx:80-160 | the loop body performs exactly one step of the run, drawing from `random` in the code's order |
| Grid.DecideImageCell | src/App.tsx:93-101 | the image/info test draws from `random` exactly as `ImageDecision` prescribes |
| Grid.PickProduct | src/App.tsx:134-149 | the product choice draws from `random` exactly as `SelectProduct` prescribes |
| GridProperties.LargePositionsSpec | src/App.tsx:81-91 | the reference list of large indices below `n` is ascending and holds exactly the indices the pattern makes large |
| GridProperties.InfoPositionsSpec | src/App.tsx:102-107 | the reference list of info positions of a grid is ascending and holds exactly its info cells |
| GridProperties.InfoPositionsNone | src/App.tsx:102-107 | a grid of image cells has no info positions |
| GridProperties.CellDraws | src/App.tsx:99-146 | each cell takes one or two draws, and two exactly when the image/info test draws |
| GridProperties.DrawsBefore | src/App.tsx:79-161 | the first `n` cells take between `n` and `2n` draws, and exactly `n` with info cells disabled |
| GridProperties.RunAppendsStep | src/App.tsx:154-160 | each iteration appends one cell and keeps the earlier cells |
| GridProperties.RunCellStep | src/App.tsx:80-160 | the appended cell has key `cell-i`, the pattern's large flag, the image flag forced for large cells, its span, and a product of the sorted list |
| GridProperties.RunLargeStep | src/App.tsx:88-91 | a large cell pushes its index and increments the counter, and no other cell does |
| GridProperties.RunInfoStep | src/App.tsx:102-107 | each iteration keeps `infoCellIndices` equal to the info positions of the grid so far |
| GridProperties.RunDrawsStep | src/App.tsx:99-146 | each iteration advances the generator by exactly its cell's draws |
| GridProperties.RunUsedStep | src/App.tsx:135-149 | each iteration updates the used set by the duplicate policy |
| GridProperties.RunLength | src/App.tsx:79 | after `n` iterations there are `n` cells |
| GridProperties.RunPrefix | src/App.tsx:154-160 | later iterations never change earlier cells or picks |
| GridProperties.RunLarge | src/App.tsx:88-91 | the summary's `largeCellIndices` and `largeCellCounter` are the reference large list and its length |
| GridProperties.RunInfo | src/App.tsx:102-107 | the summary's `infoCellIndices` are exactly the info positions of the grid |
| GridProperties.RunDraws | src/App.tsx:67-137 | after `n` cells the generator has advanced from the seed by exactly the draws of those cells |
| GridProperties.CellRule | src/App.tsx:80-160 | cell `i` is the cell iteration `i` builds |
| GridProperties.CellStays | src/App.tsx:154-160 | cell `i` of a longer run is the cell iteration `i` built |
| GridProperties.RunUsedInRange | src/App.tsx:135-149 | the used set holds only valid indices, and stays empty when duplicates are allowed |
| GridProperties.RunDistinct | src/App.tsx:138-149 | without duplicates, while the products last, the picks are pairwise distinct and the used set is exactly those picks |
| GridProperties.Sorted | src/App.tsx:70-77 | the list the loop reads is a permutation of the products |
| GridProperties.GenerateShape | src/App.tsx:79-164 | the grid has `gridDensity` cells keyed `cell-i`, so the keys are unique. The summary passes `largeCellSize`, `seed` and `gridColumnCount` through |
| GridProperties.GenerateLarge | src/App.tsx:81-104 | custom: large iff listed. Default: large iff `index % 5 == 0`. Alternate: large iff `index % 3 == 0`. Large cells are image cells and are exactly the strictly increasing, in-range `largeCellIndices` |
| GridProperties.GenerateInfo | src/App.tsx:102-107 | `infoCellIndices` are exactly the info cells, strictly increasing, in range, and disjoint from `largeCellIndices` |
| GridProperties.GenerateImageRule | src/App.tsx:93-107 | info cells disabled: no info cell at all. A listed custom info index that is not large is an info cell. With frequency 0 only listed custom indices are info cells |
| GridProperties.GenerateSpans | src/App.tsx:109-132 | a large cell spans 2 for `2x2` and 3 for `3x3`, at the pattern's column start for its rank among the large cells. Other cells have no span |
| GridProperties.GenerateProducts | src/App.tsx:134-151 | every cell shows a product of the list, at an index below its length |
| GridProperties.GenerateNoRepeats | src/App.tsx:138-149 | without duplicates and with `gridDensity <= products.length`, no product index repeats |
| GridProperties.GenerateDraws | src/App.tsx:67-161 | one call consumes one draw per cell, plus one per image/info test taken, large cells included |
| GridProperties.DefaultTwelve | src/App.tsx:85 | the default pattern on 12 cells makes cells 0, 5 and 10 large |
| GridProperties.AlternateFirstIsRight | src/App.tsx:88-118 | under `alternate`, cell 0 is large and right-aligned, because the counter is incremented before the parity test |
| Styles.SkewOf | src/App.tsx:25-29 | definition: the transform for two draws, with maximum skew `8 * intensity` and scale `1 + (maxScale - 1) * intensity` |
| Styles.StyleDraws | src/App.tsx:303-305 | definition: the number of draws one cell's style takes |
| Styles.SkewBounds | src/App.tsx:25-29 | each skew lies in [-4·intensity, 4·intensity). For an intensity in [0, 1] the scale lies in [1, 1.15] |
| Styles.RandomSkew | src/App.tsx:21-31 | intensity 0 gives `'none'` and no draw. Any other intensity gives a skew-and-scale transform and exactly two draws |
| Styles.ImageCellStyle | src/App.tsx:303-306 | an expanded cell gets no transform, z-index 50 and no draw. Otherwise the z-index lies in [0, 10), or is 0 when randomisation is off, and the draws are two for a skew plus one for the z-index |
| Styles.GetRandomSkew | src/App.tsx:21-31 | the method draws from the generator exactly as `RandomSkew` prescribes |
| Styles.StyleImageCell | src/App.tsx:303-306 | the style object is computed from the generator exactly as `ImageCellStyle` prescribes, transform first |
| Store.Defaults | src/store.ts:58-75 | definition: the initial settings |
| Store.Apply | src/store.ts:76-94 | definition: each setter or toggle as the partial object it merges into the state |
| Store.ClampUnit | src/store.ts:77-86 | `max(0, min(1, x))` lies in [0, 1], keeps in-range values, and sends values below to 0 and above to 1 |
| Store.ClampFrequency | src/store.ts:81 | `max(0, min(0.5, x))` lies in [0, 0.5], keeps in-range values, and sends values below to 0 and above to 0.5 |
| Store.ApplyFrame | src/store.ts:76-94 | every setter or toggle changes at most its own field. A toggle always changes it. A state is unchanged iff no field changed |
| Store.ApplyValid | src/store.ts:58-94 | the initial state has its clamped fields in range, and every action keeps them in range |
| Store.ToggleTwice | src/store.ts:76-87 | a toggle applied twice restores the state |
| Store.SetIdempotent | src/store.ts:77-94 | a setter applied twice equals it applied once. Re-setting a clamped field to its stored value changes nothing |
| Store.SetStores | src/store.ts:78-94 | the unclamped setters store their argument as given, with no validation |
| Store.Settings.constructor | src/store.ts:57-75 | the store starts in the listed defaults, which are in range |
| Store.Settings.ToggleSkew | src/store.ts:76 | the method performs the `toggleSkew` update |
| Store.Settings.SetSkewIntensity | src/store.ts:77 | the method stores the clamped intensity and changes nothing else |
| Store.Settings.SetLargeCellPattern | src/store.ts:78 | the method performs the `setLargeCellPattern` update |
| Store.Settings.SetCustomLargeCellIndices | src/store.ts:79 | the method performs the `setCustomLargeCellIndices` update |
| Store.Settings.ToggleInfoCells | src/store.ts:80 | the method performs the `toggleInfoCells` update |
| Store.Settings.SetInfoCellFrequency | src/store.ts:81 | the method stores the clamped frequency and changes nothing else |
| Store.Settings.SetCustomInfoCellIndices | src/store.ts:82 | the method performs the `setCustomInfoCellIndices` update |
| Store.Settings.ToggleZIndexRandomization | src/store.ts:83 | the method performs the `toggleZIndexRandomization` update |
| Store.Settings.ToggleInfoCellGradient | src/store.ts:84 | the method performs the `toggleInfoCellGradient` update |
| Store.Settings.SetInfoCellGradientIntensity | src/store.ts:85-86 | the method stores the clamped intensity and changes nothing else |
| Store.Settings.ToggleAllowDuplicateProducts | src/store.ts:87 | the method performs the `toggleAllowDuplicateProducts` update |
| Store.Settings.SetTheme | src/store.ts:88 | the method performs the `setTheme` update |
| Store.Settings.SetGridDensity | src/store.ts:89 | the method performs the `setGridDensity` update |
| Store.Settings.SetProductSort | src/store.ts:90 | the method performs the `setProductSort` update |
| Store.Settings.SetBentoGridConfig | src/store.ts:91 | the method replaces the summary wholesale |
| Store.Settings.SetLargeCellSize | src/store.ts:92 | the method performs the `setLargeCellSize` update |
| Store.Settings.SetGridColumnCount | src/store.ts:93 | the method performs the `setGridColumnCount` update |
| Store.Settings.SetSeed | src/store.ts:94 | the method performs the `setSeed` update |
| Text.NatToString | src/components/Header.tsx:47-48 | `String(n)` is a non-empty digit string without a leading zero |
| Text.DigitsValueOfNatToString | src/components/Header.tsx:47-48 | reading the digits of `String(n)` gives `n` |
| Text.NatToStringInjective | src/components/Header.tsx:47-48 | different numbers render differently |
| Text.IntToString | src/components/Header.tsx:484 | `String(x)`: a non-empty rendering that starts with `-` exactly when `x` is negative, digits otherwise |
| Text.Trim | src/components/Header.tsx:57 | definition: `trim()` as `trimStart` followed by `trimEnd` |
| Text.Join | src/components/Header.tsx:47-48 | definition: `join(sep)`, the pieces with `sep` between neighbours |
| Text.TrimStartSpec | src/components/Header.tsx:57 | `trimStart` removes a white-space prefix and leaves text not starting with white space |
| Text.TrimEndSpec | src/components/Header.tsx:57 | `trimEnd` removes a white-space suffix and leaves text not ending with white space |
| Text.TrimPadded | src/components/Header.tsx:57 | trimming a word that has leading white space gives the word |
| Text.TrimStartWhitespacePrefix | src/components/Header.tsx:57 | `trimStart` of white space followed by a word gives the word |
| Text.Split | src/components/Header.tsx:56 | `split(',')` gives at least one piece, and no piece contains a comma |
| Text.JoinSplit | src/components/Header.tsx:56 | joining the pieces of a split with `,` gives the text back |
| Text.SplitNoComma | src/components/Header.tsx:56 | comma-free text splits into itself |
| Text.SplitAfterPiece | src/components/Header.tsx:56 | a comma after a comma-free prefix ends exactly the first piece |
| Text.SplitJoin | src/components/Header.tsx:47-56 | splitting a join of comma-free pieces gives the pieces back |
| Header.ParseInt | src/components/Header.tsx:57 | definition: `parseInt` in base ten: leading white space, an optional sign, then the longest digit prefix; no digit gives NaN |
| Header.LeadingDigits | src/components/Header.tsx:57 | the prefix `parseInt` reads consists of digits only |
| Header.LeadingDigitsOf | src/components/Header.tsx:57 | `parseInt` reads exactly the digits before the first non-digit |
| Header.ParseIntNatPrefix | src/components/Header.tsx:57 | `parseInt` of a rendered number followed by non-digit text gives the number |
| Header.ParseIntNat | src/components/Header.tsx:57 | `parseInt(String(n)) == n` for natural `n` |
| Header.ParseIntNegated | src/components/Header.tsx:485 | a minus sign before digits negates their value |
| Header.ParseIntOfIntToString | src/components/Header.tsx:485 | `parseInt(String(x)) == x` for every integer `x` |
| Header.ParseIntNoDigits | src/components/Header.tsx:57-58 | text without a digit is NaN, the empty string included |
| Header.ParsePiece | src/components/Header.tsx:57 | definition: `parseInt(val.trim())` for one piece |
| Header.Keeps | src/components/Header.tsx:58-67 | definition: the `filter` test, a number in [0, gridDensity) |
| Header.KeepIndices | src/components/Header.tsx:55-58 | definition: the parsed pieces that are numbers in [0, gridDensity), in order |
| Header.KeepIndicesBounds | src/components/Header.tsx:55-58 | the filter keeps at most one index per piece, and only indices in [0, gridDensity) |
| Header.ParseIndices | src/components/Header.tsx:55-67 | every parsed index lies in [0, gridDensity), and there are at most as many as pieces |
| Header.KeepIndicesAppend | src/components/Header.tsx:55-58 | the filter works piece by piece: it keeps the order of the pieces and removes no duplicates |
| Header.KeepIndicesMembers | src/components/Header.tsx:55-58 | a value is in the list iff some piece parses to it and it lies in [0, gridDensity) |
| Header.KeepOne | src/components/Header.tsx:57-58 | a single piece contributes its number iff that number is a valid index, and otherwise nothing |
| Header.ParseIndicesEmpty | src/components/Header.tsx:55-58 | an empty field yields the empty list |
| Header.IndexListText | src/components/Header.tsx:47-48 | definition: `indices.join(', ')` |
| Header.PieceValue | src/components/Header.tsx:57 | a piece holding the digits of `n` parses to `n` |
| Header.PiecePadded | src/components/Header.tsx:47-57 | a rendered index with leading spaces is one comma-free piece that parses to the index |
| Header.Strings | src/components/Header.tsx:47-48 | one rendered string per stored index |
| Header.IndexListRoundTrip | src/components/Header.tsx:47-58 | parsing the text a field starts with, `indices.join(', ')`, gives back the stored list when all entries are valid indices |
| Header.RoundTripPadded | src/components/Header.tsx:47-58 | the round trip holds for a joined list with any white-space prefix |
| Header.SeedFromInput | src/components/Header.tsx:485 | definition: `parseInt(value) \|\| 0`, NaN giving 0 |
| Header.SeedOfNoDigits | src/components/Header.tsx:485 | a field without a digit, the cleared field included, stores seed 0 |
| Header.SeedRoundTrip | src/components/Header.tsx:484-485 | typing back the displayed seed stores the same seed |
| Header.SettingsModal.constructor | src/components/Header.tsx:47-48 | both fields start as the stored index lists joined by `, ` |
| Header.SettingsModal.HandleLargeCellInputChange | src/components/Header.tsx:53-60 | the raw text is kept in the large-cell field, the info field is untouched, and the store receives the parsed list filtered against the `gridDensity` of the render |
| Header.SettingsModal.HandleInfoCellInputChange | src/components/Header.tsx:62-69 | the same parse, kept in the info field and stored as the custom info list |
| Header.SettingsModal.HandleSeedChange | src/components/Header.tsx:485 | the store receives `parseInt(value) \|\| 0` as its seed |
| Carousel.NextIndex | src/components/ProductCard.tsx:25 | definition: the updater `(prev + 1) % length` |
| Carousel.PrevIndex | src/components/ProductCard.tsx:30 | definition: the updater `(prev - 1 + length) % length` |
| Carousel.JsRem | src/components/ProductCard.tsx:25-30 | JavaScript `%`: NaN iff the divisor is 0, and the mathematical remainder for a non-negative dividend |
| Carousel.NextWraps | src/components/ProductCard.tsx:25 | `nextImage` moves to the next image, from the last one back to 0, and stays in range |
| Carousel.PrevWraps | src/components/ProductCard.tsx:30 | `prevImage` moves to the previous image, from 0 to the last one, and stays in range |
| Carousel.NoImages | src/components/ProductCard.tsx:25-30 | a product without images turns the index into NaN on any click |
| Carousel.NextPrevInverse | src/components/ProductCard.tsx:25-30 | `prevImage` undoes `nextImage` and vice versa |
| Carousel.NextsPosition | src/components/ProductCard.tsx:25 | `k` clicks on `nextImage` from image `i` show image `(i + k) mod n` |
| Carousel.NextsPeriod | src/components/ProductCard.tsx:25 | `n` clicks on `nextImage` return to the starting image |
| Carousel.ImageCarousel.constructor | src/components/ProductCard.tsx:21 | the index starts at 0, which is in range when there is an image |
| Carousel.ImageCarousel.NextImage | src/components/ProductCard.tsx:23-26 | the method performs the `nextImage` update and keeps an in-range index in range |
| Carousel.ImageCarousel.PrevImage | src/components/ProductCard.tsx:28-31 | the method performs the `prevImage` update and keeps an in-range index in range |
| Home.LayoutOf | src/App.tsx:202-216 | definition: the arguments of the `generateGridData` call, read from the store's settings |
| Home.HomeGridOf | src/App.tsx:200-232 | definition: the memoised grid for a state, and the state after the write-back |
| Home.StoreConfig | src/App.tsx:164 | storing the summary changes no input of the grid, and storing it again changes nothing |
| Home.HomeGridStable | src/App.tsx:200-232 | recomputing the grid from the state after the write-back gives the same grid and the same state |
| Home.HomeGridShape | src/App.tsx:200-217 | for a non-empty list the page shows `gridDensity` cells. The store then records the seed, column count and large-cell size, and no other setting changes |
| Home.HomeGrid | src/App.tsx:200-217 | empty products give `[]` and leave the store alone. Otherwise the method returns the generated grid and stores its summary |

## Left out

- The Supabase fetch (`src/App.tsx:233-258`) is network I/O. Its loading and error states are left out too. Products enter as a parameter, with their `price` already computed.
- The `persist` middleware's localStorage (`src/store.ts:96-98`) is storage I/O.
- React rendering is left out: JSX, class strings, hooks and `useMemo` memoisation. `useMemo` is reduced to "compute on every change of the inputs" in `Home.HomeGridOf`. Also left out: the gradient strings of `src/App.tsx:276-285`, `NeonBorder.tsx`, the Tailwind configuration and the modal's open/close state.
- Styles.StyleImageCell: models one cell. The render loop that styles every image cell in turn from the same generator (`src/App.tsx:295-306`) is not modelled as a loop. That generator is created by `useMemo(() => mulberry32(seed), [seed])` (`src/App.tsx:197`) and lives across renders, so at a fixed seed a cell's skew and z-index change from one render to the next; the model only describes a single draw sequence from a given generator state.
- Floating point: settings, skews and prices are exact reals, with no rounding to doubles. NaN or infinite arguments to the clamping setters are not modelled.
- Layout.ImageDecision: compares `u / 2^32` with `1 - infoCellFrequency` in exact arithmetic. JavaScript rounds the subtraction to a double.
- Catalog.SortProducts: `localeCompare` (`src/App.tsx:76`) is locale-dependent. It is modelled as an abstract rank `categoryRank: string -> real` of the category. A missing category is the empty string, as `|| ''` makes it.
- Catalog.SortProducts: the library's in-place `Array.prototype.sort` (`src/App.tsx:71-76`) is modelled by its result, a stable sort by the comparator's key, computed on values. There is no in-place update of an array.
- Grid.GenerateGridData: requires a non-empty product list. With no products, the code would read `sortedProducts[0]` as `undefined`. Its only caller returns `[]` before that (`src/App.tsx:201`), which `Home.HomeGrid` models.
- Prng.AdvancePeriod: the JavaScript counter `seed += 0x6D2B79F5` (`src/App.tsx:14`) is an unwrapped double, exact only below 2^53, that is for about 4.9 million calls from seed 0. `Math.imul` and `^` convert it to 32 bits, so the outputs agree with the wrapped model while it stays exact. The 2^32-call period is a property of the model, not of the JavaScript generator.
- Prng.Mulberry32.constructor: takes the seed modulo 2^32 (ToUint32). Seeds that are not integers, or beyond 2^53, lose precision in JavaScript; that is not modelled.
- Header.ParseInt: models a decimal `parseInt`: leading white space, an optional sign, then the longest digit prefix. It does not model the `0x` hex prefix or digit strings beyond double precision.
- The seed field's browser behaviour is not modelled. The field has `type="number"`, and browsers may hand exponent forms such as `1e5` to `parseInt`; those are read as their digit prefix.
- The grid, the lemmas about runs and the product draw are stated for any output function `out` of the generator. The implementation uses `Mix`, and every statement about `generateGridData` is instantiated with it. Nothing is claimed about the statistical quality of the draws.
- `Header.ParseIndices` is built on a filter generic in the piece parser. It is applied with `ParsePiece`, that is `parseInt(trim(piece))`.
- Carousel.ImageCarousel: the image count is fixed when the card is created. A change of the `product` prop while the card is mounted is not modelled, and neither is `e.stopPropagation()`.
- `src/pages/Bikes.tsx` and `src/pages/Accessories.tsx` build unseeded grids with `Math.random` and are not part of this model. `src/data/products.ts` is static data, also not part of this model.
