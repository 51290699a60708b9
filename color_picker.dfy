/** The colour table shared by the vertex-slot and resource-binding demos
    (src/vertexSlot/index.ts, src/resourceBinding/index.ts, identical code in
    both): three RGBA rows, overwritten one at a time from a colour input's
    `#rrggbb` value, and flattened row-major into the 48-byte colour buffer. */
module ColorPicker {
  import opened Options

  /** A JavaScript number as the handlers produce it: a finite value, or NaN
      when the hex text does not parse. */
  datatype Num = Finite(value: real) | NaN

  type Row = seq<Num>

  type Byte = b: nat | b < 256

  /** A UTF-16 code unit. JavaScript strings are sequences of these, and
      `slice` counts them, so a character outside the Basic Multilingual Plane
      takes two positions. */
  type CodeUnit = c: int | 0 <= c < 0x1_0000

  type JsString = seq<CodeUnit>

  /** Both demos allocate the colour buffer with `size: 48`. */
  const ColorBufferSize: nat := 48

  /** Bytes per float of the Float32Array written to the buffer. */
  const BytesPerFloat: nat := 4

  // ---------------------------------------------------------------- hex text

  predicate IsHexDigit(c: CodeUnit)
  {
    ('0' as int <= c <= '9' as int) || ('a' as int <= c <= 'f' as int) || ('A' as int <= c <= 'F' as int)
  }

  predicate IsLowerHexDigit(c: CodeUnit)
  {
    ('0' as int <= c <= '9' as int) || ('a' as int <= c <= 'f' as int)
  }

  function DigitValue(c: CodeUnit): (d: nat)
    requires IsHexDigit(c)
    ensures d < 16
  {
    if '0' as int <= c <= '9' as int then c - '0' as int
    else if 'a' as int <= c <= 'f' as int then c - 'a' as int + 10
    else c - 'A' as int + 10
  }

  /** The lower-case digit for d, as a colour input writes it. */
  function HexDigit(d: nat): (c: CodeUnit)
    requires d < 16
    ensures IsLowerHexDigit(c) && DigitValue(c) == d
  {
    if d < 10 then '0' as int + d else 'a' as int + d - 10
  }

  lemma HexDigitOfValue(c: CodeUnit)
    requires IsLowerHexDigit(c)
    ensures HexDigit(DigitValue(c)) == c
  {
  }

  predicate AllHex(s: JsString)
  {
    forall i :: 0 <= i < |s| ==> IsHexDigit(s[i])
  }

  function Pow16(n: nat): (r: nat)
    ensures r >= 1
  {
    if n == 0 then 1 else 16 * Pow16(n - 1)
  }

  /** The value of a string of hex digits, most significant first. */
  function HexValue(s: JsString): (v: nat)
    requires AllHex(s)
    ensures v < Pow16(|s|)
  {
    if s == [] then 0 else 16 * HexValue(s[..|s| - 1]) + DigitValue(s[|s| - 1])
  }

  /** `+('0x' + s)`: a hex literal when s is a non-empty run of hex digits,
      NaN otherwise (also for the empty s, since `+'0x'` is NaN). */
  function HexNumber(s: JsString): Num
  {
    if s != [] && AllHex(s) then Finite(HexValue(s) as real) else NaN
  }

  /** `s.slice(start, end)` for 0 <= start <= end: indices past the end of the
      string are clamped to its length (positions count code units). */
  function Slice(s: JsString, start: nat, end: nat): (r: JsString)
    requires start <= end
    ensures |r| <= end - start
    ensures end <= |s| ==> r == s[start..end]
  {
    var lo := if start < |s| then start else |s|;
    var hi := if end < |s| then end else |s|;
    s[lo..hi]
  }

  /** One channel of getData2Draw: `+('0x' + color.slice(start, start + 2)) / 255`. */
  function Channel(color: JsString, start: nat): Num
  {
    match HexNumber(Slice(color, start, start + 2))
    case Finite(v) => Finite(v / 255.0)
    case NaN => NaN
  }

  /** The row getData2Draw stores: `[r, g, b, 1]`. */
  function ParseColor(color: JsString): (row: Row)
    ensures |row| == 4 && row[3] == Finite(1.0)
  {
    [Channel(color, 1), Channel(color, 3), Channel(color, 5), Finite(1.0)]
  }

  /** Whatever the input, a channel that is a number lies in [0, 1]: the slice
      holds at most two hex digits, so its value is at most 255. */
  lemma ChannelInUnitRange(color: JsString, start: nat)
    ensures Channel(color, start).Finite? ==>
              0.0 <= Channel(color, start).value <= 1.0
  {
    var s := Slice(color, start, start + 2);
    if s != [] && AllHex(s) {
      assert Pow16(|s|) <= 256 by {
        if |s| == 1 { assert Pow16(1) == 16; } else { assert Pow16(2) == 256; }
      }
    }
  }

  /** Positions count UTF-16 code units: in "#\u{1F600}ffff" the emoji is a
      surrogate pair taking positions 1 and 2, so red is NaN while the green
      and blue slices (3, 5) and (5, 7) are both "ff". */
  lemma SlicesCountCodeUnits()
    ensures var color: JsString := ['#' as int, 0xD83D, 0xDE00, 'f' as int, 'f' as int, 'f' as int, 'f' as int];
            ParseColor(color) == [NaN, Finite(1.0), Finite(1.0), Finite(1.0)]
  {
    var color: JsString := ['#' as int, 0xD83D, 0xDE00, 'f' as int, 'f' as int, 'f' as int, 'f' as int];
    var ff: JsString := ['f' as int, 'f' as int];
    assert Slice(color, 3, 5) == ff && Slice(color, 5, 7) == ff;
    assert HexValue(ff[..1]) == 15;
    assert Slice(color, 1, 3)[0] == 0xD83D && !IsHexDigit(0xD83D);
  }

  /** The shape getData2Draw relies on: seven or more characters whose
      positions 1 to 6 are hex digits (the `#` and anything after position 6
      are never looked at). */
  predicate WellFormed(color: JsString)
  {
    |color| >= 7 && forall i :: 1 <= i < 7 ==> IsHexDigit(color[i])
  }

  /** The byte written by the k-th hex pair (k = 0, 1, 2) of `#rrggbb`. */
  function PairValue(color: JsString, k: nat): (b: Byte)
    requires WellFormed(color) && k < 3
  {
    16 * DigitValue(color[2 * k + 1]) + DigitValue(color[2 * k + 2])
  }

  lemma {:induction false} ChannelOfPair(color: JsString, k: nat)
    requires WellFormed(color) && k < 3
    ensures Channel(color, 2 * k + 1) == Finite(PairValue(color, k) as real / 255.0)
  {
    var s := Slice(color, 2 * k + 1, 2 * k + 3);
    assert s == [color[2 * k + 1], color[2 * k + 2]];
    assert s[..1] == [color[2 * k + 1]];
    assert HexValue(s[..1]) == DigitValue(color[2 * k + 1]);
  }

  /** For a well-formed colour every channel is its hex pair divided by 255,
      hence a number in [0, 1], and alpha is 1. */
  lemma ParseWellFormed(color: JsString)
    requires WellFormed(color)
    ensures ParseColor(color) == [Finite(PairValue(color, 0) as real / 255.0),
                                  Finite(PairValue(color, 1) as real / 255.0),
                                  Finite(PairValue(color, 2) as real / 255.0),
                                  Finite(1.0)]
    ensures forall c :: 0 <= c < 4 ==>
              ParseColor(color)[c].Finite? && 0.0 <= ParseColor(color)[c].value <= 1.0
  {
    ChannelOfPair(color, 0);
    ChannelOfPair(color, 1);
    ChannelOfPair(color, 2);
    ChannelInUnitRange(color, 1);
    ChannelInUnitRange(color, 3);
    ChannelInUnitRange(color, 5);
  }

  /** A colour input's value for three bytes: `#rrggbb` in lower case. */
  function FormatColor(r: Byte, g: Byte, b: Byte): JsString
  {
    ['#' as int, HexDigit(r / 16), HexDigit(r % 16), HexDigit(g / 16), HexDigit(g % 16),
     HexDigit(b / 16), HexDigit(b % 16)]
  }

  /** Parsing a colour input's value gives back its bytes over 255. */
  lemma ParseFormatted(r: Byte, g: Byte, b: Byte)
    ensures WellFormed(FormatColor(r, g, b))
    ensures ParseColor(FormatColor(r, g, b)) ==
              [Finite(r as real / 255.0), Finite(g as real / 255.0), Finite(b as real / 255.0), Finite(1.0)]
  {
    var color := FormatColor(r, g, b);
    assert WellFormed(color);
    assert PairValue(color, 0) == r && PairValue(color, 1) == g && PairValue(color, 2) == b;
    ParseWellFormed(color);
  }

  /** Conversely, a lower-case `#rrggbb` is the colour input's value for the
      bytes it parses to. */
  lemma FormatParsed(color: JsString)
    requires WellFormed(color) && |color| == 7 && color[0] == '#' as int
    requires forall i :: 1 <= i < 7 ==> IsLowerHexDigit(color[i])
    ensures FormatColor(PairValue(color, 0), PairValue(color, 1), PairValue(color, 2)) == color
  {
    PairDigits(color, 0);
    PairDigits(color, 1);
    PairDigits(color, 2);
    var formatted := FormatColor(PairValue(color, 0), PairValue(color, 1), PairValue(color, 2));
    assert formatted[0] == color[0] && formatted[1] == color[1] && formatted[2] == color[2];
    assert formatted[3] == color[3] && formatted[4] == color[4];
    assert formatted[5] == color[5] && formatted[6] == color[6];
  }

  lemma PairDigits(color: JsString, k: nat)
    requires WellFormed(color) && k < 3
    requires IsLowerHexDigit(color[2 * k + 1]) && IsLowerHexDigit(color[2 * k + 2])
    ensures HexDigit(PairValue(color, k) / 16) == color[2 * k + 1]
    ensures HexDigit(PairValue(color, k) % 16) == color[2 * k + 2]
  {
    var hi, lo := DigitValue(color[2 * k + 1]), DigitValue(color[2 * k + 2]);
    assert PairValue(color, k) == 16 * hi + lo;
    assert PairValue(color, k) / 16 == hi && PairValue(color, k) % 16 == lo;
    HexDigitOfValue(color[2 * k + 1]);
    HexDigitOfValue(color[2 * k + 2]);
  }

  // ---------------------------------------------------------------- table

  const InitialRows: seq<Row> := [
    [Finite(1.0), Finite(0.0), Finite(0.0), Finite(1.0)],
    [Finite(0.0), Finite(1.0), Finite(0.0), Finite(1.0)],
    [Finite(0.0), Finite(0.0), Finite(1.0), Finite(1.0)]
  ]

  /** Three rows of four entries, each with alpha 1. */
  predicate WellShaped(rows: seq<Row>)
  {
    |rows| == 3 && forall i :: 0 <= i < |rows| ==> |rows[i]| == 4 && rows[i][3] == Finite(1.0)
  }

  /** The initial table is red, green, blue, all opaque. */
  lemma InitialRowsShape()
    ensures WellShaped(InitialRows)
    ensures InitialRows[0][..3] == [Finite(1.0), Finite(0.0), Finite(0.0)]
    ensures InitialRows[1][..3] == [Finite(0.0), Finite(1.0), Finite(0.0)]
    ensures InitialRows[2][..3] == [Finite(0.0), Finite(0.0), Finite(1.0)]
  {
  }

  /** `color_data.flat(2)`: the rows concatenated in order. */
  function Flatten(rows: seq<Row>): seq<Num>
  {
    if rows == [] then [] else rows[0] + Flatten(rows[1..])
  }

  /** Flattening four-entry rows is row-major: entry k is column k % 4 of row
      k / 4. */
  lemma {:induction false} FlattenRowMajor(rows: seq<Row>)
    requires forall i :: 0 <= i < |rows| ==> |rows[i]| == 4
    ensures |Flatten(rows)| == 4 * |rows|
    ensures forall k :: 0 <= k < |Flatten(rows)| ==> Flatten(rows)[k] == rows[k / 4][k % 4]
  {
    if rows != [] {
      FlattenRowMajor(rows[1..]);
      var flat := Flatten(rows);
      assert flat == rows[0] + Flatten(rows[1..]);
      forall k | 0 <= k < |flat| ensures flat[k] == rows[k / 4][k % 4] {
        if k >= 4 {
          assert flat[k] == Flatten(rows[1..])[k - 4];
          assert (k - 4) / 4 == k / 4 - 1 && (k - 4) % 4 == k % 4;
        }
      }
    }
  }

  /** The four floats at float offset 4k of a buffer (one `float32x4` or
      `vec4f`). */
  function Vec4At(buffer: seq<Num>, k: nat): seq<Num>
    requires 4 * k + 4 <= |buffer|
  {
    buffer[4 * k .. 4 * k + 4]
  }

  /** A well-shaped table fills the colour buffer exactly, and the k-th vec4
      of the buffer is row k. */
  lemma FlattenFillsBuffer(rows: seq<Row>)
    requires WellShaped(rows)
    ensures BytesPerFloat * |Flatten(rows)| == ColorBufferSize
    ensures forall k :: 0 <= k < 3 ==> Vec4At(Flatten(rows), k) == rows[k]
  {
    FlattenRowMajor(rows);
    forall k | 0 <= k < 3 ensures Vec4At(Flatten(rows), k) == rows[k] {
      forall c | 0 <= c < 4 ensures Vec4At(Flatten(rows), k)[c] == rows[k][c] {
        assert (4 * k + c) / 4 == k && (4 * k + c) % 4 == c;
      }
    }
  }

  // ---------------------------------------------------------------- inputs

  /** The three colour inputs and the row each listener passes to getData2Draw. */
  datatype Picker = Top | Left | Right

  function PickerIndex(p: Picker): (i: nat)
    ensures i < 3
  {
    match p
    case Top => 0
    case Left => 1
    case Right => 2
  }

  datatype Input = Input(picker: Picker, color: JsString)

  /** The table after the given input events, in order. */
  function ApplyInputs(rows: seq<Row>, inputs: seq<Input>): (r: seq<Row>)
    requires |rows| == 3
    ensures |r| == 3
  {
    if inputs == [] then rows
    else
      var last := inputs[|inputs| - 1];
      ApplyInputs(rows, inputs[..|inputs| - 1])[PickerIndex(last.picker) := ParseColor(last.color)]
  }

  /** The colour of the last event from picker p, if there is one. */
  function LastColorFor(inputs: seq<Input>, p: Picker): Option<JsString>
  {
    if inputs == [] then None
    else if inputs[|inputs| - 1].picker == p then Some(inputs[|inputs| - 1].color)
    else LastColorFor(inputs[..|inputs| - 1], p)
  }

  /** After any sequence of input events the table still has three rows of
      four entries with alpha 1, and each row holds the last colour its picker
      sent, or its initial colour if that picker never fired. */
  lemma {:induction false} ApplyInputsLastWins(rows: seq<Row>, inputs: seq<Input>)
    requires WellShaped(rows)
    ensures WellShaped(ApplyInputs(rows, inputs))
    ensures forall p: Picker :: ApplyInputs(rows, inputs)[PickerIndex(p)] ==
              match LastColorFor(inputs, p)
              case None => rows[PickerIndex(p)]
              case Some(c) => ParseColor(c)
  {
    if inputs != [] {
      ApplyInputsLastWins(rows, inputs[..|inputs| - 1]);
    }
  }

  /** The module-level `color_data` array together with the contents last
      written to the GPU colour buffer. */
  class ColorTable {
    const colorData: array<Row>
    var colorBuffer: seq<Num>

    ghost predicate Valid()
      reads this, colorData
    {
      colorData.Length == 3 && WellShaped(colorData[..]) && colorBuffer == Flatten(colorData[..])
    }

    /** The initial table, followed by the first `setBuffer2Draw()`. */
    constructor ()
      ensures Valid() && fresh(colorData)
      ensures colorData[..] == InitialRows
    {
      colorData := new Row[3] [InitialRows[0], InitialRows[1], InitialRows[2]];
      colorBuffer := [];
      new;
      assert colorData[..] == InitialRows;
      SetBuffer2Draw();
    }

    /** setBuffer2Draw: write the flattened table to the colour buffer (the
        draw it then issues is not modelled). The write covers the whole
        48-byte buffer. */
    method SetBuffer2Draw()
      requires WellShaped(colorData[..])
      modifies this`colorBuffer
      ensures colorBuffer == Flatten(colorData[..])
      ensures BytesPerFloat * |colorBuffer| == ColorBufferSize
    {
      FlattenFillsBuffer(colorData[..]);
      colorBuffer := Flatten(colorData[..]);
    }

    /** getData2Draw(e, index): replace row `index` by the parsed colour with
        alpha 1, leave the other rows alone, and redraw. */
    method GetData2Draw(color: JsString, index: nat)
      requires Valid() && index < colorData.Length
      modifies this, colorData
      ensures Valid()
      ensures colorData[..] == old(colorData[..])[index := ParseColor(color)]
    {
      colorData[index] := ParseColor(color);
      SetBuffer2Draw();
    }

    /** The `input` listener of a picker. */
    method OnInput(picker: Picker, color: JsString)
      requires Valid()
      modifies this, colorData
      ensures Valid()
      ensures colorData[..] == ApplyInputs(old(colorData[..]), [Input(picker, color)])
    {
      GetData2Draw(color, PickerIndex(picker));
      assert [Input(picker, color)][..0] == [];
    }
  }
}
