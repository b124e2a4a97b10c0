/** The converter that reads PNG or JPEG images (imageSpectrogram.c): its WAV
    writer, its synthesiser, its column loop and its file-name test. The
    image decoders are not part of this model: the converter starts from the
    decoded buffer. */
module ImageSpectrogram {
  import opened Wrappers
  import opened Bytes
  import opened OutFile
  import opened Riff
  import opened Synth
  import opened Pixels
  import opened Render

  // ---- Pitch ----

  /** `floor(22000.0 - ((double)(y + 1) / (double)(height + 1)) * 22000.0)`:
      this converter rounds the pitch ramp down to whole hertz. */
  function ToneFrequency(y: nat, height: nat): (f: real)
    ensures f == f.Floor as real
    ensures RawFrequency(y, height) - 1.0 < f <= RawFrequency(y, height)
  {
    RawFrequency(y, height).Floor as real
  }

  /** Every row's pitch lies in [0, 22000); it is a whole number of hertz
      by `ToneFrequency`'s contract. */
  lemma FrequencyRange(y: nat, height: nat)
    requires y < height
    ensures 0.0 <= ToneFrequency(y, height) < MAX_FREQUENCY
  {
    RawFrequencyRange(y, height);
  }

  /** The pitch never rises from one row to a lower one (rounding down can
      give neighbouring rows the same pitch). */
  lemma FrequencyNonIncreasing(y1: nat, y2: nat, height: nat)
    requires y1 <= y2
    ensures ToneFrequency(y2, height) <= ToneFrequency(y1, height)
  {
    if y1 < y2 {
      RawFrequencyDecreasing(y1, y2, height);
      FloorMonotonic(RawFrequency(y2, height), RawFrequency(y1, height));
    }
  }

  lemma FloorMonotonic(a: real, b: real)
    requires a <= b
    ensures a.Floor <= b.Floor
  {
    assert a.Floor as real <= a <= b < b.Floor as real + 1.0;
  }

  /** The tones of a column, top row first: each pitch lies in [0, 22000) Hz,
      pitches never rise along the set, and each attenuation lies in
      [4.25 * 3 / 768, 4.25]. */
  lemma ColumnTonesOrdered(rgb: seq<byte>, width: nat, height: nat, x: nat)
    requires ValidImage(rgb, width, height) && x < width
    ensures var tones := ColumnTones(rgb, width, height, x, height, ToneFrequency);
      && (forall i :: 0 <= i < |tones| ==> 0.0 <= tones[i].frequency < MAX_FREQUENCY)
      && (forall i :: 0 <= i < |tones| ==> MAX_ATTENUATION * 3.0 / 768.0 <= tones[i].attenuation <= MAX_ATTENUATION)
      && (forall i, j :: 0 <= i < j < |tones| ==> tones[j].frequency <= tones[i].frequency)
  {
    var tones := ColumnTones(rgb, width, height, x, height, ToneFrequency);
    var rows := QualifyingRows(rgb, width, height, x, height);
    ColumnTonesFromRows(rgb, width, height, x, height, ToneFrequency);
    QualifyingRowsOrdered(rgb, width, height, x, height);
    forall i | 0 <= i < |tones|
      ensures 0.0 <= tones[i].frequency < MAX_FREQUENCY
    {
      FrequencyRange(rows[i], height);
    }
    forall i, j | 0 <= i < j < |tones|
      ensures tones[j].frequency <= tones[i].frequency
    {
      FrequencyNonIncreasing(rows[i], rows[j], height);
    }
  }

  /** A 1x1 white image gives one tone, at 11000 Hz with the least attenuation. */
  lemma SingleWhitePixel()
    ensures ValidImage([255, 255, 255], 1, 1)
    ensures ColumnTones([255, 255, 255], 1, 1, 0, 1, ToneFrequency) == [Tone(11000.0, MAX_ATTENUATION * 3.0 / 768.0)]
  {
    assert RawFrequency(0, 1) == 11000.0;
  }

  // ---- WAV writer ----

  /** `write_wav_header`: fills in the header fields for `dataSize` bytes of
      samples and writes the 44 bytes at the stream position. */
  method WriteWavHeader(f: OutputFile, dataSize: u32)
    modifies f
    ensures f.bytes == Overwrite(old(f.bytes), old(f.pos), Serialize(PcmHeader(dataSize)))
    ensures f.pos == old(f.pos) + HEADER_SIZE
  {
    var header := WavHeader(
      riff := RIFF_TAG,
      chunkSize := (36 + dataSize) % U32_MODULUS,
      wave := WAVE_TAG,
      fmt := FMT_TAG,
      subchunk1Size := 16,
      audioFormat := 1,
      numChannels := NUM_CHANNELS,
      sampleRate := SAMPLE_RATE,
      byteRate := SAMPLE_RATE * NUM_CHANNELS as int * BITS_PER_SAMPLE as int / 8,
      blockAlign := NUM_CHANNELS * BITS_PER_SAMPLE / 8,
      bitsPerSample := BITS_PER_SAMPLE,
      data := DATA_TAG,
      dataSize := dataSize);
    f.Write(Serialize(header));
  }

  /** `finalize_wav_header`: seeks back and overwrites the RIFF chunk size at
      offset 4 and the data size at offset 40. */
  method FinalizeWavHeader(f: OutputFile, totalSamples: u32)
    modifies f
    ensures f.bytes == Finalized(old(f.bytes), totalSamples)
    ensures f.pos == DATA_SIZE_OFFSET + 4
  {
    var dataSize := (totalSamples * NUM_CHANNELS as int * (BITS_PER_SAMPLE as int / 8)) % U32_MODULUS;
    f.Seek(4);
    var chunkSize := (36 + dataSize) % U32_MODULUS;
    f.Write(Le32(chunkSize));
    f.Seek(40);
    f.Write(Le32(dataSize));
  }

  // ---- Column tone extraction ----

  /** The inner loop of `main` for column `x`: scans the rows top to bottom
      and appends the frequency and attenuation of each qualifying pixel to
      `freqs` and `amps`, returning how many it appended. The arrays have
      2048 slots and the C code does not check that bound, so the column
      must not yield more tones than that. */
  method ExtractColumn(rgb: seq<byte>, width: nat, height: nat, x: nat, freqs: array<real>, amps: array<real>)
    returns (count: nat)
    requires ValidImage(rgb, width, height) && x < width
    requires freqs.Length == TONE_CAPACITY && amps.Length == TONE_CAPACITY && freqs != amps
    requires ToneCount(rgb, width, height, x) <= TONE_CAPACITY
    modifies freqs, amps
    ensures count <= TONE_CAPACITY
    ensures TonesOf(freqs[..count], amps[..count]) == ColumnTones(rgb, width, height, x, height, ToneFrequency)
    ensures forall i :: count <= i < TONE_CAPACITY ==> freqs[i] == old(freqs[i]) && amps[i] == old(amps[i])
  {
    ColumnTonesFromRows(rgb, width, height, x, height, ToneFrequency);
    count := 0;
    for y := 0 to height
      invariant count == |ColumnTones(rgb, width, height, x, y, ToneFrequency)| <= TONE_CAPACITY
      invariant forall i :: 0 <= i < count ==>
        Tone(freqs[i], amps[i]) == ColumnTones(rgb, width, height, x, y, ToneFrequency)[i]
      invariant forall i :: count <= i < TONE_CAPACITY ==> freqs[i] == old(freqs[i]) && amps[i] == old(amps[i])
    {
      ColumnTonesPrefix(rgb, width, height, x, y + 1, height, ToneFrequency);
      PixelInBounds(width, height, x, y);
      var idx := (y * width + x) * 3;
      var r, g, b := rgb[idx] as real, rgb[idx + 1] as real, rgb[idx + 2] as real;
      if !(r > 10.0 || (g > 10.0 && b > 10.0)) {
        continue;
      }
      var c := 4.25 - 4.25 * (r + g + b) / (256.0 * 3.0);
      var freq := (22000.0 - ((y + 1) as real / (height + 1) as real) * 22000.0).Floor as real;
      freqs[count] := freq;
      amps[count] := c;
      count := count + 1;
    }
    assert TonesOf(freqs[..count], amps[..count]) == ColumnTones(rgb, width, height, x, height, ToneFrequency);
  }

  // ---- Driver ----

  /** The body of the column loop of `main`: collects the tones of column
      `x` into two fresh 2048-slot arrays and renders them at the stream
      position, which is the end of the file. */
  method RenderColumn(wav: OutputFile, rgb: seq<byte>, width: nat, height: nat, x: nat, term: ToneTerm)
    requires ValidImage(rgb, width, height) && x < width
    requires ToneCount(rgb, width, height, x) <= TONE_CAPACITY
    requires ColumnsWritten(wav.bytes, rgb, width, height, x, ToneFrequency, term) && wav.pos == |wav.bytes|
    modifies wav
    ensures ColumnsWritten(wav.bytes, rgb, width, height, x + 1, ToneFrequency, term) && wav.pos == |wav.bytes|
  {
    var freqs := new real[TONE_CAPACITY];
    var amps := new real[TONE_CAPACITY];
    var count := ExtractColumn(rgb, width, height, x, freqs, amps);
    ghost var tones, before, at := TonesOf(freqs[..count], amps[..count]), wav.bytes, wav.pos;
    AddSine(wav, freqs, amps, count, term);
    ColumnWritten(rgb, width, height, x, ToneFrequency, term, tones, before, at, wav.bytes);
  }

  /** `main` from the placeholder header to the backpatch: writes the header,
      then each column's block left to right while counting samples, then
      the final sizes. The result is the whole output file. */
  method Convert(rgb: seq<byte>, width: nat, height: nat, term: ToneTerm) returns (wav: OutputFile)
    requires ValidImage(rgb, width, height)
    requires forall x :: 0 <= x < width ==> ToneCount(rgb, width, height, x) <= TONE_CAPACITY
    ensures fresh(wav)
    ensures wav.bytes == WavFile(ImageColumns(rgb, width, height, width, ToneFrequency), term)
  {
    wav := new OutputFile.Open();
    WriteWavHeader(wav, 0);
    HeaderWritten(rgb, width, height, ToneFrequency, term, wav.bytes);
    var totalSamples := 0;
    for x := 0 to width
      invariant ColumnsWritten(wav.bytes, rgb, width, height, x, ToneFrequency, term)
      invariant wav.pos == |wav.bytes|
      invariant totalSamples == x * 8820
    {
      RenderColumn(wav, rgb, width, height, x, term);
      assert totalSamples + BLOCK_SAMPLES == (x + 1) * 8820 by {
        BlockSize();
      }
      totalSamples := totalSamples + BLOCK_SAMPLES;
    }
    ghost var before := wav.bytes;
    FinalizeWavHeader(wav, totalSamples % U32_MODULUS);
    FileFinished(rgb, width, height, ToneFrequency, term, totalSamples, before, wav.bytes);
  }

  // ---- File-name test ----

  /** ASCII `tolower`. */
  function ToLower(c: char): (r: char)
    ensures !('A' <= r <= 'Z')
    ensures 'A' <= c <= 'Z' ==> 'a' <= r <= 'z'
    ensures !('A' <= c <= 'Z') ==> r == c
  {
    if 'A' <= c <= 'Z' then (c as int + 32) as char else c
  }

  /** `strcasecmp(a, b) == 0`: the strings have the same length and agree
      character by character once both are lower-cased. */
  function CaseInsensitiveEqual(a: string, b: string): (r: bool)
    ensures r <==> |a| == |b| && forall i :: 0 <= i < |a| ==> ToLower(a[i]) == ToLower(b[i])
  {
    if |a| == 0 || |b| == 0 then |a| == |b|
    else ToLower(a[0]) == ToLower(b[0]) && CaseInsensitiveEqual(a[1..], b[1..])
  }

  /** `ends_with`: false when either string is null or the suffix is the
      longer; otherwise whether the string's last characters equal the
      suffix, ignoring ASCII case. */
  function EndsWith(s: Option<string>, suffix: Option<string>): (r: bool)
    ensures r <==> (s.Some? && suffix.Some? && |suffix.value| <= |s.value|
      && forall i :: 0 <= i < |suffix.value| ==>
           ToLower(s.value[|s.value| - |suffix.value| + i]) == ToLower(suffix.value[i]))
  {
    if s.None? || suffix.None? then false
    else
      var lenstr := |s.value|;
      var lensuffix := |suffix.value|;
      if lensuffix > lenstr then false
      else CaseInsensitiveEqual(s.value[lenstr - lensuffix..], suffix.value)
  }

  /** Suffixes that differ only in case match the same strings; in particular
      testing for ".png" and for ".PNG" gives the same answer. */
  lemma EndsWithIgnoresCase(s: Option<string>, a: string, b: string)
    requires |a| == |b| && forall i :: 0 <= i < |a| ==> ToLower(a[i]) == ToLower(b[i])
    ensures EndsWith(s, Some(a)) == EndsWith(s, Some(b))
  {
  }

  lemma PngSuffixEitherCase(s: Option<string>)
    ensures EndsWith(s, Some(".png")) == EndsWith(s, Some(".PNG"))
  {
    EndsWithIgnoresCase(s, ".png", ".PNG");
  }

  datatype ImageFormat = PngImage | JpegImage | Unsupported

  /** The choice of decoder in `main`: PNG for a ".png" or ".PNG" name, JPEG for
      ".jpg", ".jpeg", ".JPG" or ".JPEG", anything else refused. Because the
      test ignores case, the upper-case spellings add nothing, and names such
      as "photo.Png" are accepted as well. */
  function DecoderFor(input: string): (format: ImageFormat)
    ensures format == PngImage <==> EndsWith(Some(input), Some(".png"))
    ensures format == JpegImage <==> (!EndsWith(Some(input), Some(".png"))
      && (EndsWith(Some(input), Some(".jpg")) || EndsWith(Some(input), Some(".jpeg"))))
  {
    var name := Some(input);
    EndsWithIgnoresCase(name, ".png", ".PNG");
    EndsWithIgnoresCase(name, ".jpg", ".JPG");
    EndsWithIgnoresCase(name, ".jpeg", ".JPEG");
    if EndsWith(name, Some(".png")) || EndsWith(name, Some(".PNG")) then PngImage
    else if EndsWith(name, Some(".jpg")) || EndsWith(name, Some(".jpeg"))
         || EndsWith(name, Some(".JPG")) || EndsWith(name, Some(".JPEG")) then JpegImage
    else Unsupported
  }
}
