/** The simplified converter that reads PNG images only
    (imageSpectrogram_onlyPng.c). Its `add_sine` is the same code as the
    other converter's and is `Render.AddSine`; its header is written from a
    struct initializer with literal values, its finalisation computes the
    data size as `total_samples * 2`, and it does not round the pitch. The
    PNG decoder is not part of this model: the converter starts from the
    decoded buffer. */
module ImageSpectrogramPng {
  import opened Bytes
  import opened OutFile
  import opened Riff
  import opened Synth
  import opened Pixels
  import opened Render
  import ImageSpectrogram

  // ---- Pitch ----

  /** This converter's pitch is the ramp itself, so every row's pitch lies
      strictly between 0 and 22000 Hz. */
  lemma FrequencyRange(y: nat, height: nat)
    requires y < height
    ensures 0.0 < RawFrequency(y, height) < MAX_FREQUENCY
  {
    RawFrequencyRange(y, height);
  }

  /** The tones of a column, top row first: each pitch lies strictly between
      0 and 22000 Hz, pitches strictly fall along the set (no two tones of a
      column share a pitch), and each attenuation lies in
      [4.25 * 3 / 768, 4.25]. */
  lemma ColumnTonesOrdered(rgb: seq<byte>, width: nat, height: nat, x: nat)
    requires ValidImage(rgb, width, height) && x < width
    ensures var tones := ColumnTones(rgb, width, height, x, height, RawFrequency);
      && (forall i :: 0 <= i < |tones| ==> 0.0 < tones[i].frequency < MAX_FREQUENCY)
      && (forall i :: 0 <= i < |tones| ==> MAX_ATTENUATION * 3.0 / 768.0 <= tones[i].attenuation <= MAX_ATTENUATION)
      && (forall i, j :: 0 <= i < j < |tones| ==> tones[j].frequency < tones[i].frequency)
  {
    var tones := ColumnTones(rgb, width, height, x, height, RawFrequency);
    var rows := QualifyingRows(rgb, width, height, x, height);
    ColumnTonesFromRows(rgb, width, height, x, height, RawFrequency);
    QualifyingRowsOrdered(rgb, width, height, x, height);
    forall i | 0 <= i < |tones|
      ensures 0.0 < tones[i].frequency < MAX_FREQUENCY
    {
      RawFrequencyRange(rows[i], height);
    }
    forall i, j | 0 <= i < j < |tones|
      ensures tones[j].frequency < tones[i].frequency
    {
      RawFrequencyDecreasing(rows[i], rows[j], height);
    }
  }

  /** The two converters find the same tones in every column, with the same
      attenuations; they differ only in that the other one rounds each pitch
      down, which lowers it by less than 1 Hz. */
  lemma PitchesWithinOneHertz(rgb: seq<byte>, width: nat, height: nat, x: nat)
    requires ValidImage(rgb, width, height) && x < width
    ensures var exact := ColumnTones(rgb, width, height, x, height, RawFrequency);
      var rounded := ColumnTones(rgb, width, height, x, height, ImageSpectrogram.ToneFrequency);
      && |rounded| == |exact|
      && (forall i :: 0 <= i < |exact| ==> rounded[i].attenuation == exact[i].attenuation)
      && (forall i :: 0 <= i < |exact| ==> exact[i].frequency - 1.0 < rounded[i].frequency <= exact[i].frequency)
  {
    ColumnTonesFromRows(rgb, width, height, x, height, RawFrequency);
    ColumnTonesFromRows(rgb, width, height, x, height, ImageSpectrogram.ToneFrequency);
  }

  /** A 1x1 white image gives one tone, at 11000 Hz with the least attenuation. */
  lemma SingleWhitePixel()
    ensures ValidImage([255, 255, 255], 1, 1)
    ensures ColumnTones([255, 255, 255], 1, 1, 0, 1, RawFrequency) == [Tone(11000.0, MAX_ATTENUATION * 3.0 / 768.0)]
  {
    assert RawFrequency(0, 1) == 11000.0;
  }

  // ---- WAV writer ----

  /** `write_wav_header`: the header built from literal values for
      `dataSize` bytes of samples, written at the stream position. The
      literals are those the other converter computes, so the bytes are the
      same. */
  method WriteWavHeader(f: OutputFile, dataSize: u32)
    modifies f
    ensures f.bytes == Overwrite(old(f.bytes), old(f.pos), Serialize(PcmHeader(dataSize)))
    ensures f.pos == old(f.pos) + HEADER_SIZE
  {
    var header := WavHeader(RIFF_TAG, (36 + dataSize) % U32_MODULUS, WAVE_TAG, FMT_TAG, 16, 1, 1,
                            SAMPLE_RATE, SAMPLE_RATE * 2, 2, BITS_PER_SAMPLE, DATA_TAG, dataSize);
    f.Write(Serialize(header));
  }

  /** `finalize_wav_header`: seeks back and overwrites the RIFF chunk size at
      offset 4 and the data size, `total_samples * 2` in 32 bits, at offset 40. */
  method FinalizeWavHeader(f: OutputFile, totalSamples: u32)
    modifies f
    ensures f.bytes == Finalized(old(f.bytes), totalSamples)
    ensures f.pos == DATA_SIZE_OFFSET + 4
  {
    var dataSize := (totalSamples * 2) % U32_MODULUS;
    assert dataSize == DataSizeFor(totalSamples);
    f.Seek(4);
    var chunk := (36 + dataSize) % U32_MODULUS;
    assert chunk == ChunkSizeFor(dataSize);
    f.Write(Le32(chunk));
    f.Seek(40);
    f.Write(Le32(dataSize));
  }

  // ---- Column loop ----

  /** The row loop of `main` for column `x`: for each row, top to bottom,
      reads the pixel through the pointer `img + (y * w + x) * 3` and, when it
      qualifies, appends its pitch and attenuation to `f` and `a`. The
      arrays have 2048 slots and the C code does not check that bound, so
      the column must not yield more tones than that. */
  method ExtractColumn(img: seq<byte>, w: nat, h: nat, x: nat, f: array<real>, a: array<real>)
    returns (n: nat)
    requires ValidImage(img, w, h) && x < w
    requires f.Length == TONE_CAPACITY && a.Length == TONE_CAPACITY && f != a
    requires ToneCount(img, w, h, x) <= TONE_CAPACITY
    modifies f, a
    ensures n <= TONE_CAPACITY
    ensures TonesOf(f[..n], a[..n]) == ColumnTones(img, w, h, x, h, RawFrequency)
    ensures forall i :: n <= i < TONE_CAPACITY ==> f[i] == old(f[i]) && a[i] == old(a[i])
  {
    ColumnTonesFromRows(img, w, h, x, h, RawFrequency);
    n := 0;
    for y := 0 to h
      invariant n == |ColumnTones(img, w, h, x, y, RawFrequency)| <= TONE_CAPACITY
      invariant forall i :: 0 <= i < n ==> Tone(f[i], a[i]) == ColumnTones(img, w, h, x, y, RawFrequency)[i]
      invariant forall i :: n <= i < TONE_CAPACITY ==> f[i] == old(f[i]) && a[i] == old(a[i])
    {
      ColumnTonesPrefix(img, w, h, x, y + 1, h, RawFrequency);
      PixelInBounds(w, h, x, y);
      var p := (y * w + x) * 3;
      var r, g, b := img[p] as real, img[p + 1] as real, img[p + 2] as real;
      if !(r > 10.0 || (g > 10.0 && b > 10.0)) {
        continue;
      }
      var c := 4.25 - 4.25 * (r + g + b) / (256.0 * 3.0);
      var freq := 22000.0 - ((y + 1) as real / (h + 1) as real) * 22000.0;
      f[n] := freq;
      a[n] := c;
      n := n + 1;
    }
    assert TonesOf(f[..n], a[..n]) == ColumnTones(img, w, h, x, h, RawFrequency);
  }

  /** The body of the column loop of `main`: fresh 2048-slot arrays filled
      with column `x`'s tones, rendered at the stream position, which is the
      end of the file. */
  method RenderColumn(wav: OutputFile, img: seq<byte>, w: nat, h: nat, x: nat, term: ToneTerm)
    requires ValidImage(img, w, h) && x < w
    requires ToneCount(img, w, h, x) <= TONE_CAPACITY
    requires ColumnsWritten(wav.bytes, img, w, h, x, RawFrequency, term) && wav.pos == |wav.bytes|
    modifies wav
    ensures ColumnsWritten(wav.bytes, img, w, h, x + 1, RawFrequency, term) && wav.pos == |wav.bytes|
  {
    var f := new real[TONE_CAPACITY];
    var a := new real[TONE_CAPACITY];
    var n := ExtractColumn(img, w, h, x, f, a);
    ghost var tones, before, at := TonesOf(f[..n], a[..n]), wav.bytes, wav.pos;
    AddSine(wav, f, a, n, term);
    ColumnWritten(img, w, h, x, RawFrequency, term, tones, before, at, wav.bytes);
  }

  /** `main` from the placeholder header to the backpatch: the whole output
      file for an image of `w` columns and `h` rows. */
  method Convert(img: seq<byte>, w: nat, h: nat, term: ToneTerm) returns (wav: OutputFile)
    requires ValidImage(img, w, h)
    requires forall x :: 0 <= x < w ==> ToneCount(img, w, h, x) <= TONE_CAPACITY
    ensures fresh(wav)
    ensures wav.bytes == WavFile(ImageColumns(img, w, h, w, RawFrequency), term)
  {
    wav := new OutputFile.Open();
    WriteWavHeader(wav, 0);
    HeaderWritten(img, w, h, RawFrequency, term, wav.bytes);
    var totalSamples := 0;
    for x := 0 to w
      invariant ColumnsWritten(wav.bytes, img, w, h, x, RawFrequency, term)
      invariant wav.pos == |wav.bytes|
      invariant totalSamples == x * 8820
    {
      RenderColumn(wav, img, w, h, x, term);
      assert totalSamples + BLOCK_SAMPLES == (x + 1) * 8820 by {
        BlockSize();
      }
      totalSamples := totalSamples + BLOCK_SAMPLES;
    }
    ghost var before := wav.bytes;
    FinalizeWavHeader(wav, totalSamples % U32_MODULUS);
    FileFinished(img, w, h, RawFrequency, term, totalSamples, before, wav.bytes);
  }
}
