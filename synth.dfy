/** The additive synthesiser and the finished WAV stream: each image column
    becomes a block of 16-bit samples, the mean of one sine per tone, and the
    blocks follow the header in column order. */
module Synth {
  import opened Bytes
  import opened Riff
  import opened Wrappers

  /** One qualifying pixel's contribution: a pitch in Hz and an attenuation
      exponent (the tone is scaled by 10^-attenuation). */
  datatype Tone = Tone(frequency: real, attenuation: real)

  /** The value one tone adds to a sample at time `t` seconds, given its
      frequency and attenuation: `sin(2*pi*f*t) * 10 / 10^a` in the source.
      The sine and the power are floating-point library calls, so the model
      takes this term as a parameter and assumes nothing about it. */
  type ToneTerm = (real, real, real) -> real

  /** The tones held in the parallel arrays `freqs[..n]` and `amps[..n]`. */
  function TonesOf(freqs: seq<real>, amps: seq<real>): (tones: seq<Tone>)
    requires |freqs| == |amps|
    ensures |tones| == |freqs|
    ensures forall i :: 0 <= i < |tones| ==> tones[i] == Tone(freqs[i], amps[i])
  {
    seq(|freqs|, i requires 0 <= i < |freqs| => Tone(freqs[i], amps[i]))
  }

  /** Seconds of audio per image column. */
  const COLUMN_DURATION: real := 0.2

  /** `(int)(COLUMN_DURATION * SAMPLE_RATE)`: samples per column. */
  const BLOCK_SAMPLES: int := (COLUMN_DURATION * SAMPLE_RATE as real).Floor

  /** Bytes per column block: two per 16-bit mono sample. */
  const BLOCK_BYTES: int := 2 * BLOCK_SAMPLES

  /** Full scale of a signed 16-bit sample. */
  const FULL_SCALE: real := 32767.0

  lemma BlockSize()
    ensures BLOCK_SAMPLES == 8820 && BLOCK_BYTES == 17640
  {
  }

  /** The time of sample `pos`: `(double)pos / SAMPLE_RATE`. */
  function SampleTime(pos: nat): real
  {
    pos as real / SAMPLE_RATE as real
  }

  /** The sum of every tone's term at time `t`, added up in tone order. */
  function SumTerms(tones: seq<Tone>, term: ToneTerm, t: real): real
  {
    if |tones| == 0 then 0.0
    else SumTerms(tones[..|tones| - 1], term, t) + term(tones[|tones| - 1].frequency, tones[|tones| - 1].attenuation, t)
  }

  /** The column's signal before quantisation: the mean of the tone terms,
      and 0 when the column has no tone. */
  function ColumnValue(tones: seq<Tone>, term: ToneTerm, t: real): (v: real)
    ensures |tones| == 0 ==> v == 0.0
    ensures |tones| == 1 ==> v == term(tones[0].frequency, tones[0].attenuation, t)
  {
    var sum := SumTerms(tones, term, t);
    assert |tones| == 1 ==> SumTerms(tones[..0], term, t) == 0.0 && sum == term(tones[0].frequency, tones[0].attenuation, t);
    if |tones| > 0 then sum / |tones| as real else sum
  }

  /** The C conversion of a `double` to an integer: the fraction is dropped
      (rounding toward zero). */
  function TruncateTowardZero(v: real): (n: int)
    ensures v >= 0.0 ==> n as real <= v < n as real + 1.0
    ensures v < 0.0 ==> n as real - 1.0 < v <= n as real
  {
    if v >= 0.0 then v.Floor else -((-v).Floor)
  }

  /** `(int16_t)v`: exact when the truncated value fits in 16 bits. C leaves
      a value out of range undefined; the model wraps it modulo 2^16, as two's
      complement hardware does. */
  function ToInt16(v: real): (s: i16)
    ensures -32768 <= TruncateTowardZero(v) <= 32767 ==> s == TruncateTowardZero(v)
  {
    (TruncateTowardZero(v) + 0x8000) % 0x1_0000 - 0x8000
  }

  /** Sample `pos` of a column's block. */
  function SampleAt(tones: seq<Tone>, term: ToneTerm, pos: nat): (s: i16)
    ensures |tones| == 0 ==> s == 0
  {
    ToInt16(ColumnValue(tones, term, SampleTime(pos)) * FULL_SCALE)
  }

  /** The PCM block `add_sine` renders for a column's tones. */
  function Block(tones: seq<Tone>, term: ToneTerm): (b: seq<i16>)
    ensures |b| == BLOCK_SAMPLES
  {
    seq(BLOCK_SAMPLES, pos requires 0 <= pos => SampleAt(tones, term, pos))
  }

  /** Sample `pos` of the block is the column's signal at time `pos / 44100`. */
  lemma BlockSamples(tones: seq<Tone>, term: ToneTerm)
    ensures forall pos :: 0 <= pos < BLOCK_SAMPLES ==> Block(tones, term)[pos] == SampleAt(tones, term, pos)
  {
  }

  /** The bytes of a run of samples, each little-endian, in order. */
  function PcmBytes(samples: seq<i16>): seq<byte>
  {
    if |samples| == 0 then []
    else PcmBytes(samples[..|samples| - 1]) + I16Le(samples[|samples| - 1])
  }

  /** Every sample takes two bytes, and sample `k` sits at bytes `2k` and `2k + 1`. */
  lemma {:induction false} PcmBytesLayout(samples: seq<i16>)
    ensures |PcmBytes(samples)| == 2 * |samples|
    ensures forall k :: 0 <= k < |samples| ==> PcmBytes(samples)[2 * k..2 * k + 2] == I16Le(samples[k])
  {
    if |samples| > 0 {
      var init := samples[..|samples| - 1];
      PcmBytesLayout(init);
      forall k | 0 <= k < |samples|
        ensures PcmBytes(samples)[2 * k..2 * k + 2] == I16Le(samples[k])
      {
        if k < |init| {
          assert PcmBytes(samples)[2 * k..2 * k + 2] == PcmBytes(init)[2 * k..2 * k + 2];
        }
      }
    }
  }

  /** The bytes of samples `0..n+1` are those of samples `0..n` followed by sample `n`. */
  lemma PcmBytesNext(samples: seq<i16>, n: nat)
    requires n < |samples|
    ensures PcmBytes(samples[..n + 1]) == PcmBytes(samples[..n]) + I16Le(samples[n])
  {
    assert samples[..n + 1][..n] == samples[..n];
  }

  /** A column without tones is silence: every sample of its block is 0, so
      every byte written for it is 0. */
  lemma SilentBlock(term: ToneTerm)
    ensures forall pos :: 0 <= pos < |Block([], term)| ==> Block([], term)[pos] == 0
    ensures forall k :: 0 <= k < |PcmBytes(Block([], term))| ==> PcmBytes(Block([], term))[k] == 0
  {
    var b := Block([], term);
    BlockSamples([], term);
    forall pos | 0 <= pos < |b| ensures b[pos] == 0 {
      assert ColumnValue([], term, SampleTime(pos)) == 0.0;
    }
    ZeroBytes(b);
  }

  /** Silent samples are written as zero bytes. */
  lemma {:induction false} ZeroBytes(samples: seq<i16>)
    requires forall pos :: 0 <= pos < |samples| ==> samples[pos] == 0
    ensures forall k :: 0 <= k < |PcmBytes(samples)| ==> PcmBytes(samples)[k] == 0
  {
    if |samples| > 0 {
      ZeroBytes(samples[..|samples| - 1]);
      assert I16Le(samples[|samples| - 1]) == [0, 0];
    }
  }

  /** Averaging keeps the signal within the bound of its terms: when every
      tone's term stays within `bound`, so does the column's value, however
      many tones the column holds. */
  lemma {:induction false} ColumnValueBounded(tones: seq<Tone>, term: ToneTerm, t: real, bound: real)
    requires forall i :: 0 <= i < |tones| ==> -bound <= term(tones[i].frequency, tones[i].attenuation, t) <= bound
    requires bound >= 0.0
    ensures -bound <= ColumnValue(tones, term, t) <= bound
  {
    SumBounded(tones, term, t, bound);
    if |tones| > 0 {
      var n := |tones| as real;
      var s := SumTerms(tones, term, t);
      assert -bound * n <= s <= bound * n;
      assert s / n <= bound by {
        assert s <= bound * n;
      }
      assert -bound <= s / n by {
        assert -bound * n <= s;
      }
    }
  }

  lemma {:induction false} SumBounded(tones: seq<Tone>, term: ToneTerm, t: real, bound: real)
    requires forall i :: 0 <= i < |tones| ==> -bound <= term(tones[i].frequency, tones[i].attenuation, t) <= bound
    ensures -bound * |tones| as real <= SumTerms(tones, term, t) <= bound * |tones| as real
  {
    if |tones| > 0 {
      var init := tones[..|tones| - 1];
      assert forall i :: 0 <= i < |init| ==> init[i] == tones[i];
      SumBounded(init, term, t, bound);
      assert bound * |tones| as real == bound * |init| as real + bound;
    }
  }

  /** The sample data of a whole image: each column's block, in column order. */
  function ColumnsBytes(columns: seq<seq<Tone>>, term: ToneTerm): seq<byte>
  {
    if |columns| == 0 then []
    else ColumnsBytes(columns[..|columns| - 1], term) + PcmBytes(Block(columns[|columns| - 1], term))
  }

  /** Column `x`'s block takes bytes `x * BLOCK_BYTES` up to `(x + 1) * BLOCK_BYTES`
      of the sample data, so the blocks are laid out back to back in column order. */
  lemma {:induction false} ColumnsBytesLayout(columns: seq<seq<Tone>>, term: ToneTerm)
    ensures |ColumnsBytes(columns, term)| == BLOCK_BYTES * |columns|
    ensures forall x :: 0 <= x < |columns| ==>
      ColumnsBytes(columns, term)[BLOCK_BYTES * x..BLOCK_BYTES * (x + 1)] == PcmBytes(Block(columns[x], term))
  {
    BlockSize();
    if |columns| > 0 {
      var init := columns[..|columns| - 1];
      ColumnsBytesLayout(init, term);
      PcmBytesLayout(Block(columns[|columns| - 1], term));
      var all := ColumnsBytes(columns, term);
      forall x | 0 <= x < |columns|
        ensures all[BLOCK_BYTES * x..BLOCK_BYTES * (x + 1)] == PcmBytes(Block(columns[x], term))
      {
        if x < |init| {
          assert BLOCK_BYTES * (x + 1) <= BLOCK_BYTES * |init|;
          assert all[BLOCK_BYTES * x..BLOCK_BYTES * (x + 1)] == ColumnsBytes(init, term)[BLOCK_BYTES * x..BLOCK_BYTES * (x + 1)];
        }
      }
    }
  }

  /** The finished output file for a sequence of column tone sets: the header
      with the final sizes, then the blocks. */
  function WavFile(columns: seq<seq<Tone>>, term: ToneTerm): seq<byte>
  {
    Serialize(PcmHeader(DataSizeFor((|columns| * BLOCK_SAMPLES) % U32_MODULUS))) + ColumnsBytes(columns, term)
  }

  /** The finished file is `44 + 17640 * width` bytes long and starts with the
      header that carries the final sizes. */
  lemma WavFileLength(columns: seq<seq<Tone>>, term: ToneTerm)
    ensures |WavFile(columns, term)| == HEADER_SIZE + 17640 * |columns|
    ensures WavFile(columns, term)[..HEADER_SIZE]
         == Serialize(PcmHeader(DataSizeFor((|columns| * BLOCK_SAMPLES) % U32_MODULUS)))
  {
    BlockSize();
    ColumnsBytesLayout(columns, term);
  }

  /** In the finished file the data-size field is the file length less the 44
      header bytes, and the RIFF chunk size the file length less the 8 bytes of
      the chunk's own header, both modulo 2^32; a WAVE reader sees mono 16-bit
      PCM at 44100 Hz. */
  lemma WavFileHeader(columns: seq<seq<Tone>>, term: ToneTerm)
    ensures |WavFile(columns, term)| >= HEADER_SIZE
    ensures U32At(WavFile(columns, term), DATA_SIZE_OFFSET) == (|WavFile(columns, term)| - 44) % U32_MODULUS
    ensures U32At(WavFile(columns, term), CHUNK_SIZE_OFFSET) == (|WavFile(columns, term)| - 8) % U32_MODULUS
    ensures ParseHeader(WavFile(columns, term)).Some?
    ensures var h := ParseHeader(WavFile(columns, term)).value;
      h.sampleRate == 44100 && h.numChannels == 1 && h.bitsPerSample == 16 && h.audioFormat == WAVE_FORMAT_PCM
  {
    var total := (|columns| * BLOCK_SAMPLES) % U32_MODULUS;
    ReadsAsHeader(DataSizeFor(total), ColumnsBytes(columns, term));
    WavFileLength(columns, term);
    DataSizeWraps(|columns|);
    ChunkSizeWraps(total);
  }

  /** Whatever follows it, a file that starts with the header for `dataSize`
      reads as that header. */
  lemma ReadsAsHeader(dataSize: u32, rest: seq<byte>)
    ensures var file := Serialize(PcmHeader(dataSize)) + rest;
      && ParseHeader(file) == Some(PcmHeader(dataSize))
      && U32At(file, DATA_SIZE_OFFSET) == dataSize
      && U32At(file, CHUNK_SIZE_OFFSET) == ChunkSizeFor(dataSize)
  {
    var header := Serialize(PcmHeader(dataSize));
    var file := header + rest;
    assert file[..HEADER_SIZE] == header;
    ParsePrefix(file);
    ParseSerialize(PcmHeader(dataSize));
  }

  /** A header is read from the first 44 bytes alone. */
  lemma ParsePrefix(s: seq<byte>)
    requires |s| >= HEADER_SIZE
    ensures ParseHeader(s) == ParseHeader(s[..HEADER_SIZE])
  {
    var p := s[..HEADER_SIZE];
    assert s[0..4] == p[0..4] && s[8..12] == p[8..12] && s[12..16] == p[12..16] && s[36..40] == p[36..40];
    forall off: nat | off + 4 <= HEADER_SIZE ensures U32At(s, off) == U32At(p, off) {
      U32AtSlice(s, off, 0, HEADER_SIZE);
    }
    forall off: nat | off + 2 <= HEADER_SIZE ensures U16At(s, off) == U16At(p, off) {
      U16AtSlice(s, off, 0, HEADER_SIZE);
    }
  }

  /** Wrapping the sample total to 32 bits before doubling it loses nothing
      that doubling modulo 2^32 would keep. */
  lemma DataSizeWraps(width: nat)
    ensures DataSizeFor((width * BLOCK_SAMPLES) % U32_MODULUS) == (17640 * width) % U32_MODULUS
    ensures (36 + 2 * ((width * BLOCK_SAMPLES) % U32_MODULUS)) % U32_MODULUS == (17640 * width + 36) % U32_MODULUS
  {
    BlockSize();
    var total := width * BLOCK_SAMPLES;
    var q := total / U32_MODULUS;
    var r := total % U32_MODULUS;
    assert total == q * U32_MODULUS + r;
    ModAddMultiple(2 * r, 2 * q);
    ModAddMultiple(36 + 2 * r, 2 * q);
  }

  lemma ModAddMultiple(a: int, k: int)
    ensures (a + k * U32_MODULUS) % U32_MODULUS == a % U32_MODULUS
  {
  }

  /** Column `x`'s samples are bytes `44 + 17640 x` to `44 + 17640 (x + 1)` of the file. */
  lemma WavFileColumn(columns: seq<seq<Tone>>, term: ToneTerm, x: nat)
    requires x < |columns|
    ensures 44 + 17640 * (x + 1) <= |WavFile(columns, term)|
    ensures WavFile(columns, term)[44 + 17640 * x..44 + 17640 * (x + 1)] == PcmBytes(Block(columns[x], term))
  {
    BlockSize();
    ColumnsBytesLayout(columns, term);
    var file := WavFile(columns, term);
    var header := Serialize(PcmHeader(DataSizeFor((|columns| * BLOCK_SAMPLES) % U32_MODULUS)));
    assert file[44 + 17640 * x..44 + 17640 * (x + 1)] == ColumnsBytes(columns, term)[17640 * x..17640 * (x + 1)];
  }
}
