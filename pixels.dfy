/** The column tone extractor: which pixels of a column sound, and the
    attenuation and pitch they are given. The image is a decoded RGB buffer,
    row-major, three bytes per pixel, no padding. */
module Pixels {
  import opened Bytes
  import opened Synth

  /** The top of the pitch ramp, in Hz. */
  const MAX_FREQUENCY: real := 22000.0

  /** Slots in the `freqs` and `amps` arrays the extraction loop fills. */
  const TONE_CAPACITY: nat := 2048

  /** The attenuation of a silent (black) pixel. */
  const MAX_ATTENUATION: real := 4.25

  /** Pixel (x, y)'s red byte sits at `(y * width + x) * 3`, green and blue after it. */
  function PixelIndex(width: nat, x: nat, y: nat): nat
  {
    (y * width + x) * 3
  }

  /** For every pixel of the image, the three bytes read for it lie inside the
      `width * height * 3` buffer. */
  lemma PixelInBounds(width: nat, height: nat, x: nat, y: nat)
    requires x < width && y < height
    ensures PixelIndex(width, x, y) + 2 < width * height * 3
  {
    RowInBounds(width, height, x, y);
  }

  /** Pixel (x, y) is pixel number `y * width + x` of the `width * height`. */
  lemma RowInBounds(width: nat, height: nat, x: nat, y: nat)
    requires x < width && y < height
    ensures y * width + x < width * height
  {
    MulMonotone(y + 1, height, width);
    assert (y + 1) * width == y * width + width;
  }

  lemma MulMonotone(a: nat, b: nat, c: nat)
    requires a <= b
    ensures a * c <= b * c
  {
    assert b * c == a * c + (b - a) * c;
  }

  /** A decoded image: its buffer holds exactly three bytes per pixel. */
  predicate ValidImage(rgb: seq<byte>, width: nat, height: nat)
  {
    |rgb| == width * height * 3
  }

  /** The (r, g, b) of pixel (x, y). */
  function PixelAt(rgb: seq<byte>, width: nat, height: nat, x: nat, y: nat): (byte, byte, byte)
    requires ValidImage(rgb, width, height) && x < width && y < height
  {
    PixelInBounds(width, height, x, y);
    var i := PixelIndex(width, x, y);
    (rgb[i], rgb[i + 1], rgb[i + 2])
  }

  /** The inclusion test: strong red, or green and blue together. */
  predicate Qualifies(r: byte, g: byte, b: byte): (q: bool)
    ensures r + g + b <= 10 ==> !q
    ensures r == g == b ==> (q <==> r > 10)
    ensures r <= 10 && g <= 10 ==> !q
  {
    r > 10 || (g > 10 && b > 10)
  }

  predicate QualifiesAt(rgb: seq<byte>, width: nat, height: nat, x: nat, y: nat)
    requires ValidImage(rgb, width, height) && x < width && y < height
  {
    var (r, g, b) := PixelAt(rgb, width, height, x, y);
    Qualifies(r, g, b)
  }

  /** `4.25 - 4.25 * (r + g + b) / (256.0 * 3.0)`: brighter pixels are
      attenuated less. The divisor is 768, not the largest brightness 765,
      so the attenuation never reaches 0. */
  function Attenuation(r: byte, g: byte, b: byte): (c: real)
    ensures MAX_ATTENUATION * 3.0 / 768.0 <= c <= MAX_ATTENUATION
    ensures c > 0.0
    ensures r + g + b == 0 ==> c == MAX_ATTENUATION
    ensures r + g + b == 765 ==> c == MAX_ATTENUATION * 3.0 / 768.0
  {
    MAX_ATTENUATION - MAX_ATTENUATION * (r + g + b) as real / (256.0 * 3.0)
  }

  /** A brighter pixel is never attenuated more, and strictly less when its
      brightness is strictly higher. */
  lemma AttenuationDecreasing(r1: byte, g1: byte, b1: byte, r2: byte, g2: byte, b2: byte)
    requires r1 + g1 + b1 <= r2 + g2 + b2
    ensures Attenuation(r2, g2, b2) <= Attenuation(r1, g1, b1)
    ensures r1 + g1 + b1 < r2 + g2 + b2 ==> Attenuation(r2, g2, b2) < Attenuation(r1, g1, b1)
  {
  }

  /** `22000.0 - ((y + 1) / (height + 1)) * 22000.0`: the linear pitch ramp,
      highest at the top row; over real numbers. */
  function RawFrequency(y: nat, height: nat): real
  {
    MAX_FREQUENCY - ((y + 1) as real / (height + 1) as real) * MAX_FREQUENCY
  }

  /** The ramp in closed form: `22000 * (height - y) / (height + 1)`. */
  lemma RawFrequencyClosedForm(y: nat, height: nat)
    ensures RawFrequency(y, height) == MAX_FREQUENCY * (height as real - y as real) / (height + 1) as real
  {
    var d := (height + 1) as real;
    assert MAX_FREQUENCY == MAX_FREQUENCY * d / d;
    assert ((y + 1) as real / d) * MAX_FREQUENCY == MAX_FREQUENCY * (y + 1) as real / d;
  }

  /** Every row of the image gets a pitch strictly between 0 and 22000 Hz. */
  lemma RawFrequencyRange(y: nat, height: nat)
    requires y < height
    ensures 0.0 < RawFrequency(y, height) < MAX_FREQUENCY
  {
    RawFrequencyClosedForm(y, height);
    var d := (height + 1) as real;
    var n := height as real - y as real;
    assert 0.0 < n < d;
    assert MAX_FREQUENCY * n < MAX_FREQUENCY * d;
    assert MAX_FREQUENCY * n / d < MAX_FREQUENCY;
  }

  /** A lower row gets a strictly lower pitch. */
  lemma RawFrequencyDecreasing(y1: nat, y2: nat, height: nat)
    requires y1 < y2
    ensures RawFrequency(y2, height) < RawFrequency(y1, height)
  {
    var d := (height + 1) as real;
    assert (y1 + 1) as real / d < (y2 + 1) as real / d;
  }

  /** How a file turns a row and the image height into a tone's pitch. */
  type FrequencyRule = (nat, nat) -> real

  /** The tone pixel (x, y) contributes when it qualifies. */
  function ToneAt(rgb: seq<byte>, width: nat, height: nat, x: nat, y: nat, freq: FrequencyRule): Tone
    requires ValidImage(rgb, width, height) && x < width && y < height
  {
    var (r, g, b) := PixelAt(rgb, width, height, x, y);
    Tone(freq(y, height), Attenuation(r, g, b))
  }

  /** The rows among the first `n` of column `x` that contribute a tone, top first. */
  function QualifyingRows(rgb: seq<byte>, width: nat, height: nat, x: nat, n: nat): seq<nat>
    requires ValidImage(rgb, width, height) && x < width && n <= height
  {
    if n == 0 then []
    else QualifyingRows(rgb, width, height, x, n - 1)
         + (if QualifiesAt(rgb, width, height, x, n - 1) then [n - 1] else [])
  }

  /** The Column Tone Set of the first `n` rows of column `x`: one tone per
      qualifying pixel, in row order, as the extraction loop appends them. */
  function ColumnTones(rgb: seq<byte>, width: nat, height: nat, x: nat, n: nat, freq: FrequencyRule): (tones: seq<Tone>)
    requires ValidImage(rgb, width, height) && x < width && n <= height
    ensures |tones| <= n
  {
    if n == 0 then []
    else ColumnTones(rgb, width, height, x, n - 1, freq)
         + (if QualifiesAt(rgb, width, height, x, n - 1) then [ToneAt(rgb, width, height, x, n - 1, freq)] else [])
  }

  /** A row is among the qualifying rows exactly when its pixel passes the
      inclusion test. */
  lemma {:induction false} QualifyingRowsMembers(rgb: seq<byte>, width: nat, height: nat, x: nat, n: nat)
    requires ValidImage(rgb, width, height) && x < width && n <= height
    ensures forall y: nat :: y in QualifyingRows(rgb, width, height, x, n) <==> y < n && QualifiesAt(rgb, width, height, x, y)
  {
    if n > 0 {
      QualifyingRowsMembers(rgb, width, height, x, n - 1);
      var rows := QualifyingRows(rgb, width, height, x, n - 1);
      assert QualifyingRows(rgb, width, height, x, n)
          == rows + (if QualifiesAt(rgb, width, height, x, n - 1) then [n - 1] else []);
    }
  }

  /** The qualifying rows are listed top to bottom, each once, so there are at
      most as many as rows scanned. */
  lemma {:induction false} QualifyingRowsOrdered(rgb: seq<byte>, width: nat, height: nat, x: nat, n: nat)
    requires ValidImage(rgb, width, height) && x < width && n <= height
    ensures forall i :: 0 <= i < |QualifyingRows(rgb, width, height, x, n)| ==> QualifyingRows(rgb, width, height, x, n)[i] < n
    ensures forall i, j :: 0 <= i < j < |QualifyingRows(rgb, width, height, x, n)| ==>
      QualifyingRows(rgb, width, height, x, n)[i] < QualifyingRows(rgb, width, height, x, n)[j]
    ensures |QualifyingRows(rgb, width, height, x, n)| <= n
  {
    if n > 0 {
      QualifyingRowsOrdered(rgb, width, height, x, n - 1);
      var rows := QualifyingRows(rgb, width, height, x, n - 1);
      assert QualifyingRows(rgb, width, height, x, n)
          == rows + (if QualifiesAt(rgb, width, height, x, n - 1) then [n - 1] else []);
    }
  }

  /** Tone `i` of a column comes from its `i`-th qualifying row. */
  lemma {:induction false} ColumnTonesFromRows(rgb: seq<byte>, width: nat, height: nat, x: nat, n: nat, freq: FrequencyRule)
    requires ValidImage(rgb, width, height) && x < width && n <= height
    ensures |ColumnTones(rgb, width, height, x, n, freq)| == |QualifyingRows(rgb, width, height, x, n)|
    ensures forall i :: 0 <= i < |QualifyingRows(rgb, width, height, x, n)| ==>
      QualifyingRows(rgb, width, height, x, n)[i] < height &&
      ColumnTones(rgb, width, height, x, n, freq)[i]
        == ToneAt(rgb, width, height, x, QualifyingRows(rgb, width, height, x, n)[i], freq)
  {
    QualifyingRowsOrdered(rgb, width, height, x, n);
    if n > 0 {
      ColumnTonesFromRows(rgb, width, height, x, n - 1, freq);
      var sounds := QualifiesAt(rgb, width, height, x, n - 1);
      assert QualifyingRows(rgb, width, height, x, n)
          == QualifyingRows(rgb, width, height, x, n - 1) + (if sounds then [n - 1] else []);
      assert ColumnTones(rgb, width, height, x, n, freq)
          == ColumnTones(rgb, width, height, x, n - 1, freq)
             + (if sounds then [ToneAt(rgb, width, height, x, n - 1, freq)] else []);
    }
  }

  /** A column whose pixels all qualify yields one tone per row. */
  lemma {:induction false} AllQualifyingRows(rgb: seq<byte>, width: nat, height: nat, x: nat, n: nat)
    requires ValidImage(rgb, width, height) && x < width && n <= height
    requires forall y :: 0 <= y < n ==> QualifiesAt(rgb, width, height, x, y)
    ensures |QualifyingRows(rgb, width, height, x, n)| == n
  {
    if n > 0 {
      AllQualifyingRows(rgb, width, height, x, n - 1);
    }
  }

  /** A column whose pixels all fail the test yields no tone. */
  lemma {:induction false} NoQualifyingRows(rgb: seq<byte>, width: nat, height: nat, x: nat, n: nat, freq: FrequencyRule)
    requires ValidImage(rgb, width, height) && x < width && n <= height
    requires forall y :: 0 <= y < n ==> !QualifiesAt(rgb, width, height, x, y)
    ensures ColumnTones(rgb, width, height, x, n, freq) == []
  {
    if n > 0 {
      NoQualifyingRows(rgb, width, height, x, n - 1, freq);
    }
  }

  /** The Column Tone Sets of the first `n` columns, left to right. */
  function ImageColumns(rgb: seq<byte>, width: nat, height: nat, n: nat, freq: FrequencyRule): (cols: seq<seq<Tone>>)
    requires ValidImage(rgb, width, height) && n <= width
    ensures |cols| == n
  {
    if n == 0 then []
    else ImageColumns(rgb, width, height, n - 1, freq) + [ColumnTones(rgb, width, height, n - 1, height, freq)]
  }

  /** Entry `x` of the list is the tone set of column `x`. */
  lemma {:induction false} ImageColumnsAt(rgb: seq<byte>, width: nat, height: nat, n: nat, freq: FrequencyRule)
    requires ValidImage(rgb, width, height) && n <= width
    ensures forall x :: 0 <= x < n ==> ImageColumns(rgb, width, height, n, freq)[x] == ColumnTones(rgb, width, height, x, height, freq)
  {
    if n > 0 {
      ImageColumnsAt(rgb, width, height, n - 1, freq);
    }
  }

  /** How many tones column `x` yields. */
  function ToneCount(rgb: seq<byte>, width: nat, height: nat, x: nat): nat
    requires ValidImage(rgb, width, height) && x < width
  {
    |QualifyingRows(rgb, width, height, x, height)|
  }

  /** Scanning more rows only appends tones: the tones of the first `n` rows
      are a prefix of those of the first `m`. */
  lemma {:induction false} ColumnTonesPrefix(rgb: seq<byte>, width: nat, height: nat, x: nat, n: nat, m: nat, freq: FrequencyRule)
    requires ValidImage(rgb, width, height) && x < width && n <= m <= height
    ensures |ColumnTones(rgb, width, height, x, n, freq)| <= |ColumnTones(rgb, width, height, x, m, freq)|
    ensures ColumnTones(rgb, width, height, x, n, freq)
         == ColumnTones(rgb, width, height, x, m, freq)[..|ColumnTones(rgb, width, height, x, n, freq)|]
  {
    if n < m {
      ColumnTonesPrefix(rgb, width, height, x, n, m - 1, freq);
      var shorter := ColumnTones(rgb, width, height, x, m - 1, freq);
      assert ColumnTones(rgb, width, height, x, m, freq)[..|shorter|] == shorter;
    }
  }

  /** An image at most 2048 rows tall never yields more tones per column than
      the tone arrays hold. */
  lemma ToneCountWithinCapacity(rgb: seq<byte>, width: nat, height: nat, x: nat)
    requires ValidImage(rgb, width, height) && x < width
    ensures ToneCount(rgb, width, height, x) <= height
    ensures height <= TONE_CAPACITY ==> ToneCount(rgb, width, height, x) <= TONE_CAPACITY
  {
    QualifyingRowsOrdered(rgb, width, height, x, height);
  }

  /** A one-pixel-wide white image 2049 rows tall yields 2049 tones, one more
      than the tone arrays hold: the capacity bound is a real limit on the
      images the converter can take. */
  lemma TallWhiteColumnOverflows()
    ensures ValidImage(seq(3 * 2049, _ => 255), 1, 2049)
    ensures ToneCount(seq(3 * 2049, _ => 255), 1, 2049, 0) == TONE_CAPACITY + 1
  {
    var rgb: seq<byte> := seq(3 * 2049, _ => 255);
    forall y | 0 <= y < 2049 ensures QualifiesAt(rgb, 1, 2049, 0, y) {
      assert rgb[PixelIndex(1, 0, y)] == 255;
    }
    AllQualifyingRows(rgb, 1, 2049, 0, 2049);
  }

  /** Processing one more column appends that column's block to the sample data. */
  lemma ImageColumnsStep(rgb: seq<byte>, width: nat, height: nat, x: nat, freq: FrequencyRule, term: ToneTerm)
    requires ValidImage(rgb, width, height) && x < width
    ensures |PcmBytes(Block(ColumnTones(rgb, width, height, x, height, freq), term))| == BLOCK_BYTES
    ensures ColumnsBytes(ImageColumns(rgb, width, height, x + 1, freq), term)
         == ColumnsBytes(ImageColumns(rgb, width, height, x, freq), term)
            + PcmBytes(Block(ColumnTones(rgb, width, height, x, height, freq), term))
  {
    PcmBytesLayout(Block(ColumnTones(rgb, width, height, x, height, freq), term));
    var done := ImageColumns(rgb, width, height, x + 1, freq);
    assert done[..x] == ImageColumns(rgb, width, height, x, freq);
  }
}
