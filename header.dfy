/**
 * The settings modal's text inputs (src/components/Header.tsx): the two
 * comma-separated index fields (lines 47-48, 53-69) and the seed field
 * (line 485). The inputs are parsed with `parseInt`, read here as its
 * decimal form: leading white space, an optional sign, then the longest run
 * of decimal digits, and NaN when that run is empty.
 */
module Header {
  import opened Wrappers
  import opened Text
  import opened Store

  /** The longest prefix of decimal digits. */
  function LeadingDigits(s: string): (r: string)
    ensures AllDigits(r)
  {
    if s == [] || !IsDigit(s[0]) then [] else [s[0]] + LeadingDigits(s[1..])
  }

  /** `parseInt(s)` in base ten; `None` is NaN. */
  function ParseInt(s: string): Option<int> {
    var t := TrimStart(s);
    var negative := t != [] && t[0] == '-';
    var body := if t != [] && (t[0] == '-' || t[0] == '+') then t[1..] else t;
    var digits := LeadingDigits(body);
    if digits == [] then None
    else
      var value: int := DigitsValue(digits);
      Some(if negative then -value else value)
  }

  /** The digits of a number followed by anything that does not start with a digit. */
  lemma {:induction false} LeadingDigitsOf(ds: string, rest: string)
    requires AllDigits(ds)
    requires rest == [] || !IsDigit(rest[0])
    ensures LeadingDigits(ds + rest) == ds
  {
    if ds != [] {
      assert (ds + rest)[1..] == ds[1..] + rest;
      LeadingDigitsOf(ds[1..], rest);
      assert [ds[0]] + ds[1..] == ds;
    } else {
      assert ds + rest == rest;
    }
  }

  /** `parseInt` reads back a rendered natural number, whatever non-digit text follows it ("12abc", "1.5"). */
  lemma ParseIntNatPrefix(n: nat, rest: string)
    requires rest == [] || !IsDigit(rest[0])
    ensures ParseInt(NatToString(n) + rest) == Some(n)
  {
    var ds := NatToString(n);
    var s := ds + rest;
    assert s[0] == ds[0];
    assert TrimStart(s) == s;
    LeadingDigitsOf(ds, rest);
    DigitsValueOfNatToString(n);
  }

  /** `parseInt(String(x)) == x` for every integer `x`. */
  lemma ParseIntOfIntToString(x: int)
    ensures ParseInt(IntToString(x)) == Some(x)
  {
    if x < 0 {
      ParseIntNegated(NatToString(-x));
      DigitsValueOfNatToString(-x);
    } else {
      ParseIntNat(x);
    }
  }

  /** A minus sign before a run of digits negates its value. */
  lemma ParseIntNegated(ds: string)
    requires ds != [] && AllDigits(ds)
    ensures ParseInt("-" + ds) == Some(0 - DigitsValue(ds))
  {
    var s := "-" + ds;
    assert s[0] == '-' && !IsWhitespace(s[0]);
    assert TrimStart(s) == s;
    assert s[1..] == ds;
    LeadingDigitsOf(ds, []);
    assert ds + [] == ds;
    assert LeadingDigits(s[1..]) == ds;
  }

  /** Text with no digit at all is NaN; in particular the empty string is. */
  lemma ParseIntNoDigits(s: string)
    requires forall i :: 0 <= i < |s| ==> !IsDigit(s[i])
    ensures ParseInt(s) == None
  {
    TrimStartSpec(s);
    var t := TrimStart(s);
    assert forall i :: 0 <= i < |t| ==> t[i] == s[|s| - |t| + i];
  }

  /** One piece of the list: `parseInt(val.trim())`. */
  function ParsePiece(piece: string): Option<int> {
    ParseInt(Trim(piece))
  }

  /** The test of the `filter` (lines 58 and 67): a number, and an index of the grid. */
  predicate Keeps(v: Option<int>, gridDensity: int) {
    v.Some? && 0 <= v.value < gridDensity
  }

  /**
   * `.map(parse).filter(...)` over the pieces, in order; the handlers use
   * `parse = ParsePiece`, and the properties below hold for any `parse`.
   */
  function KeepIndices(pieces: seq<string>, parse: string -> Option<int>, gridDensity: int): seq<int> {
    if pieces == [] then []
    else
      var v := parse(pieces[0]);
      (if Keeps(v, gridDensity) then [v.value] else []) + KeepIndices(pieces[1..], parse, gridDensity)
  }

  /** At most one index per piece, and only valid indices. */
  lemma {:induction false} KeepIndicesBounds(pieces: seq<string>, parse: string -> Option<int>, gridDensity: int)
    ensures var r := KeepIndices(pieces, parse, gridDensity);
      |r| <= |pieces| && forall i :: 0 <= i < |r| ==> 0 <= r[i] < gridDensity
  {
    if pieces != [] {
      KeepIndicesBounds(pieces[1..], parse, gridDensity);
    }
  }

  /** The index list a text stands for (lines 55-58 and 64-67). */
  function ParseIndices(text: string, gridDensity: int): (r: seq<int>)
    ensures forall i :: 0 <= i < |r| ==> 0 <= r[i] < gridDensity
    ensures |r| <= |Split(text)|
  {
    KeepIndicesBounds(Split(text), ParsePiece, gridDensity);
    KeepIndices(Split(text), ParsePiece, gridDensity)
  }

  /** The filter works piece by piece: it keeps the order of the pieces and removes no duplicates. */
  lemma {:induction false} KeepIndicesAppend(a: seq<string>, b: seq<string>, parse: string -> Option<int>, gridDensity: int)
    ensures KeepIndices(a + b, parse, gridDensity) == KeepIndices(a, parse, gridDensity) + KeepIndices(b, parse, gridDensity)
  {
    if a != [] {
      assert (a + b)[1..] == a[1..] + b;
      KeepIndicesAppend(a[1..], b, parse, gridDensity);
    } else {
      assert a + b == b;
    }
  }

  /** A value is in the list exactly when some piece parses to it and it is a valid index. */
  lemma {:induction false} KeepIndicesMembers(pieces: seq<string>, parse: string -> Option<int>, gridDensity: int, v: int)
    ensures v in KeepIndices(pieces, parse, gridDensity)
      <==> exists i :: 0 <= i < |pieces| && parse(pieces[i]) == Some(v) && 0 <= v < gridDensity
  {
    if pieces != [] {
      KeepIndicesMembers(pieces[1..], parse, gridDensity, v);
      if exists i :: 0 <= i < |pieces| && parse(pieces[i]) == Some(v) && 0 <= v < gridDensity {
        var i :| 0 <= i < |pieces| && parse(pieces[i]) == Some(v) && 0 <= v < gridDensity;
        if i > 0 {
          assert pieces[1..][i - 1] == pieces[i];
        }
      }
      if v in KeepIndices(pieces[1..], parse, gridDensity) {
        var i :| 0 <= i < |pieces| - 1 && parse(pieces[1..][i]) == Some(v) && 0 <= v < gridDensity;
        assert pieces[i + 1] == pieces[1..][i];
      }
    }
  }

  /** An empty field clears the list. */
  lemma ParseIndicesEmpty(gridDensity: int)
    ensures ParseIndices("", gridDensity) == []
  {
    ParseIntNoDigits("");
    assert Trim("") == "";
    assert ParsePiece("") == None;
    assert Split("") == [""];
    assert KeepIndices([""], ParsePiece, gridDensity) == [] + KeepIndices([""][1..], ParsePiece, gridDensity);
  }

  /** The filter on a single piece: its number when that is a valid index, else nothing. */
  lemma KeepOne(p: string, parse: string -> Option<int>, gridDensity: int)
    ensures KeepIndices([p], parse, gridDensity) == if Keeps(parse(p), gridDensity) then [parse(p).value] else []
  {
    assert [p][1..] == [];
  }

  /** A piece holding just the digits of `n` parses to `n`. */
  lemma PieceValue(n: nat, text: string)
    requires text == NatToString(n)
    ensures ParsePiece(text) == Some(n)
  {
    PiecePadded(n, "");
    assert "" + text == text;
  }

  /** `String(x)` of each number. */
  function Strings(xs: seq<int>): (r: seq<string>)
    ensures |r| == |xs|
  {
    if xs == [] then [] else [IntToString(xs[0])] + Strings(xs[1..])
  }

  /** The text an index field starts with, `indices.join(', ')` (lines 47-48). */
  function IndexListText(xs: seq<int>): string {
    Join(Strings(xs), ", ")
  }

  /** Parsing the text an index field starts with gives back the stored list when all its entries are valid indices. */
  lemma IndexListRoundTrip(xs: seq<int>, gridDensity: int)
    requires forall i :: 0 <= i < |xs| ==> 0 <= xs[i] < gridDensity
    ensures ParseIndices(IndexListText(xs), gridDensity) == xs
  {
    RoundTripPadded(xs, gridDensity, "");
    assert "" + IndexListText(xs) == IndexListText(xs);
  }

  lemma {:induction false} RoundTripPadded(xs: seq<int>, gridDensity: int, pad: string)
    requires forall i :: 0 <= i < |xs| ==> 0 <= xs[i] < gridDensity
    requires AllWhitespace(pad)
    ensures KeepIndices(Split(pad + Join(Strings(xs), ", ")), ParsePiece, gridDensity) == xs
  {
    WhitespaceNoComma(pad);
    if xs == [] {
      assert pad + "" == pad;
      SplitNoComma(pad);
      TrimStartWhitespacePrefix(pad, "");
      assert pad + "" == pad;
      ParseIntNoDigits("");
    } else {
      var s0 := NatToString(xs[0]);
      PiecePadded(xs[0], pad);
      if |xs| == 1 {
        assert Join(Strings(xs), ", ") == s0;
        SplitNoComma(pad + s0);
      } else {
        var rest := Join(Strings(xs[1..]), ", ");
        assert Strings(xs)[1..] == Strings(xs[1..]);
        assert pad + Join(Strings(xs), ", ") == (pad + s0) + "," + (" " + rest);
        SplitAfterPiece(pad + s0, " " + rest);
        RoundTripPadded(xs[1..], gridDensity, " ");
        KeepIndicesAppend([pad + s0], Split(" " + rest), ParsePiece, gridDensity);
        assert [xs[0]] + xs[1..] == xs;
      }
    }
  }

  /** A padded rendered index is one comma-free piece that parses back to the index. */
  lemma PiecePadded(x: int, pad: string)
    requires x >= 0 && AllWhitespace(pad)
    ensures IntToString(x) == NatToString(x)
    ensures ',' !in pad + NatToString(x)
    ensures ParsePiece(pad + NatToString(x)) == Some(x)
  {
    var s := NatToString(x);
    WhitespaceNoComma(pad);
    DigitsNoComma(s);
    assert IsDigit(s[0]) && IsDigit(s[|s| - 1]);
    TrimPadded(pad, s);
    ParseIntNat(x);
  }

  lemma DigitsNoComma(s: string)
    requires AllDigits(s)
    ensures ',' !in s
  {
  }

  lemma ParseIntNat(n: nat)
    ensures ParseInt(NatToString(n)) == Some(n)
  {
    ParseIntNatPrefix(n, []);
    assert NatToString(n) + [] == NatToString(n);
  }

  lemma WhitespaceNoComma(pad: string)
    requires AllWhitespace(pad)
    ensures ',' !in pad
  {
  }

  /** The seed field (line 485): `parseInt(value) || 0`, so NaN and zero both give 0. */
  function SeedFromInput(value: string): int {
    match ParseInt(value)
    case None => 0
    case Some(v) => v
  }

  /** The field shows `String(seed)`; reading it back gives the same seed. */
  lemma SeedRoundTrip(seed: int)
    ensures SeedFromInput(IntToString(seed)) == seed
  {
    ParseIntOfIntToString(seed);
  }

  /** A field holding no digit, the cleared field included, stores seed 0. */
  lemma SeedOfNoDigits(value: string)
    requires forall i :: 0 <= i < |value| ==> !IsDigit(value[i])
    ensures SeedFromInput(value) == 0
  {
    ParseIntNoDigits(value);
  }

  /** The modal's two text states next to the settings store. */
  class SettingsModal {
    var largeCellInput: string
    var infoCellInput: string
    const settings: Settings

    /** Lines 47-48: the fields start as the stored lists joined by ", ". */
    constructor (settings: Settings)
      ensures this.settings == settings
      ensures largeCellInput == IndexListText(settings.state.customLargeCellIndices)
      ensures infoCellInput == IndexListText(settings.state.customInfoCellIndices)
    {
      this.settings := settings;
      largeCellInput := IndexListText(settings.state.customLargeCellIndices);
      infoCellInput := IndexListText(settings.state.customInfoCellIndices);
    }

    /** Lines 53-60: keep the raw text, store the parsed list. */
    method HandleLargeCellInputChange(value: string)
      modifies this, settings
      ensures largeCellInput == value && infoCellInput == old(infoCellInput)
      ensures settings.state == Apply(old(settings.state), SetCustomLargeCellIndices(ParseIndices(value, old(settings.state.gridDensity))))
    {
      largeCellInput := value;
      var indices := ParseIndices(value, settings.state.gridDensity);
      settings.SetCustomLargeCellIndices(indices);
    }

    /** Lines 62-69: the same parse, for the info cell field. */
    method HandleInfoCellInputChange(value: string)
      modifies this, settings
      ensures infoCellInput == value && largeCellInput == old(largeCellInput)
      ensures settings.state == Apply(old(settings.state), SetCustomInfoCellIndices(ParseIndices(value, old(settings.state.gridDensity))))
    {
      infoCellInput := value;
      var indices := ParseIndices(value, settings.state.gridDensity);
      settings.SetCustomInfoCellIndices(indices);
    }

    /** Line 485. */
    method HandleSeedChange(value: string)
      modifies settings
      ensures settings.state == Apply(old(settings.state), SetSeed(SeedFromInput(value)))
    {
      settings.SetSeed(SeedFromInput(value));
    }
  }
}
