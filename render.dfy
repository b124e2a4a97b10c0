/** What the two converters share line for line: `add_sine`, and the shape of
    the output file while `main`'s column loop runs. The converters differ
    only in the pitch they give a row, which is a parameter here. */
module Render {
  import opened Bytes
  import opened OutFile
  import opened Riff
  import opened Synth
  import opened Pixels

  // ---- add_sine ----

  /** The inner loop of `add_sine` and the division after it: the sum of
      the first `count` tones' terms at time `t`, divided by `count` when
      there is at least one tone. */
  method MixTones(freqs: array<real>, amps: array<real>, count: nat, term: ToneTerm, t: real) returns (val: real)
    requires count <= freqs.Length && count <= amps.Length
    ensures val == ColumnValue(TonesOf(freqs[..count], amps[..count]), term, t)
  {
    ghost var tones := TonesOf(freqs[..count], amps[..count]);
    val := 0.0;
    for i := 0 to count
      invariant val == SumTerms(tones[..i], term, t)
    {
      assert tones[..i + 1][..i] == tones[..i];
      val := val + term(freqs[i], amps[i], t);
    }
    assert tones[..count] == tones;
    if count > 0 {
      val := val / count as real;
    }
  }

  /** One iteration of the sample loop: the samples before `pos` had been
      written from `start`, and writing sample `pos` just after them leaves
      the samples up to and including `pos` written from `start`. */
  lemma SampleWritten(file: seq<byte>, start: nat, block: seq<i16>, pos: nat, sample: i16,
                      before: seq<byte>, at: nat, after: seq<byte>)
    requires pos < |block| && sample == block[pos] && at == start + 2 * pos
    requires before == Overwrite(file, start, PcmBytes(block[..pos]))
    requires after == Overwrite(before, at, I16Le(sample))
    ensures after == Overwrite(file, start, PcmBytes(block[..pos + 1]))
  {
    var written := PcmBytes(block[..pos]);
    PcmBytesLayout(block[..pos]);
    OverwriteConsecutive(file, start, written, I16Le(block[pos]));
    PcmBytesNext(block, pos);
  }

  /** `add_sine`: renders one column's block from the first `count` tones of
      the arrays and writes its samples, one `int16_t` at a time, at the
      stream position. */
  method AddSine(f: OutputFile, freqs: array<real>, amps: array<real>, count: nat, term: ToneTerm)
    requires count <= freqs.Length && count <= amps.Length
    modifies f
    ensures f.bytes == Overwrite(old(f.bytes), old(f.pos), PcmBytes(Block(old(TonesOf(freqs[..count], amps[..count])), term)))
    ensures f.pos == old(f.pos) + BLOCK_BYTES
  {
    ghost var tones := TonesOf(freqs[..count], amps[..count]);
    ghost var block := Block(tones, term);
    ghost var start, before := f.pos, f.bytes;
    var samples := BLOCK_SAMPLES;
    var pos := 0;
    while pos < samples
      invariant 0 <= pos <= samples == |block|
      invariant f.bytes == Overwrite(before, start, PcmBytes(block[..pos]))
      invariant f.pos == start + 2 * pos
    {
      var t := pos as real / SAMPLE_RATE as real;
      var val := MixTones(freqs, amps, count, term, t);
      var sample := ToInt16(val * 32767.0);
      assert sample == block[pos] by {
        BlockSamples(tones, term);
      }
      ghost var cur, at := f.bytes, f.pos;
      f.Write(I16Le(sample));
      SampleWritten(before, start, block, pos, sample, cur, at, f.bytes);
      pos := pos + 1;
    }
    assert block[..pos] == block;
    PcmBytesLayout(block);
  }

  // ---- The column loop of main ----

  /** The output file holds the placeholder header followed by the blocks of
      the columns before `x`, each column's pitches given by `freq`. */
  ghost predicate ColumnsWritten(file: seq<byte>, rgb: seq<byte>, width: nat, height: nat, x: nat,
                                 freq: FrequencyRule, term: ToneTerm)
    requires ValidImage(rgb, width, height) && x <= width
  {
    file == Serialize(PcmHeader(0)) + ColumnsBytes(ImageColumns(rgb, width, height, x, freq), term)
  }

  /** The file just after the placeholder header was written to an empty
      stream holds no column yet. */
  lemma HeaderWritten(rgb: seq<byte>, width: nat, height: nat, freq: FrequencyRule, term: ToneTerm, after: seq<byte>)
    requires ValidImage(rgb, width, height)
    requires after == Overwrite([], 0, Serialize(PcmHeader(0)))
    ensures ColumnsWritten(after, rgb, width, height, 0, freq, term)
    ensures |after| == HEADER_SIZE
  {
    OverwriteAtEnd([], Serialize(PcmHeader(0)));
  }

  /** One iteration of the column loop: the file held the header and the
      blocks of the columns before `x`, and `add_sine` wrote the block of the
      tones extracted for column `x` at its end; the file now holds the
      blocks of the columns up to and including `x`. */
  lemma ColumnWritten(rgb: seq<byte>, width: nat, height: nat, x: nat, freq: FrequencyRule, term: ToneTerm,
                      tones: seq<Tone>, before: seq<byte>, at: nat, after: seq<byte>)
    requires ValidImage(rgb, width, height) && x < width
    requires tones == ColumnTones(rgb, width, height, x, height, freq)
    requires ColumnsWritten(before, rgb, width, height, x, freq, term)
    requires at == |before| && after == Overwrite(before, at, PcmBytes(Block(tones, term)))
    ensures ColumnsWritten(after, rgb, width, height, x + 1, freq, term)
    ensures |after| == |before| + BLOCK_BYTES
  {
    var block := PcmBytes(Block(tones, term));
    var done := ColumnsBytes(ImageColumns(rgb, width, height, x, freq), term);
    ImageColumnsStep(rgb, width, height, x, freq, term);
    OverwriteAtEnd(before, block);
    AppendAssociative(Serialize(PcmHeader(0)), done, block);
  }

  /** After the last column: backpatching the placeholder header with the
      number of samples written gives the finished file. */
  lemma FileFinished(rgb: seq<byte>, width: nat, height: nat, freq: FrequencyRule, term: ToneTerm,
                     totalSamples: nat, before: seq<byte>, after: seq<byte>)
    requires ValidImage(rgb, width, height)
    requires ColumnsWritten(before, rgb, width, height, width, freq, term)
    requires totalSamples == width * 8820
    requires after == Finalized(before, totalSamples % U32_MODULUS)
    ensures after == WavFile(ImageColumns(rgb, width, height, width, freq), term)
  {
    BlockSize();
    FinalizePlaceholder(ColumnsBytes(ImageColumns(rgb, width, height, width, freq), term), totalSamples % U32_MODULUS);
  }
}
