/** The 44-byte header of a RIFF/WAVE file holding PCM audio: a `RIFF` chunk
    whose form type is `WAVE`, a 16-byte `fmt ` chunk and the header of the
    `data` chunk, every number little-endian and no padding between fields. */
module Riff {
  import opened Bytes
  import opened OutFile
  import opened Wrappers

  const SAMPLE_RATE: u32 := 44100
  const BITS_PER_SAMPLE: u16 := 16
  const NUM_CHANNELS: u16 := 1
  /** The `wFormatTag` of uncompressed PCM. */
  const WAVE_FORMAT_PCM: u16 := 1
  /** Size of the `fmt ` chunk body for PCM. */
  const FMT_CHUNK_SIZE: u32 := 16
  const HEADER_SIZE: nat := 44
  /** Byte offsets of the two size fields that are only known at the end. */
  const CHUNK_SIZE_OFFSET: nat := 4
  const DATA_SIZE_OFFSET: nat := 40

  /** The bytes of a four-character code. */
  function FourCC(s: string): (r: seq<byte>)
    requires |s| == 4 && forall i :: 0 <= i < 4 ==> s[i] as int < 0x100
    ensures |r| == 4
  {
    [s[0] as int, s[1] as int, s[2] as int, s[3] as int]
  }

  const RIFF_TAG: seq<byte> := FourCC("RIFF")
  const WAVE_TAG: seq<byte> := FourCC("WAVE")
  const FMT_TAG: seq<byte> := FourCC("fmt ")
  const DATA_TAG: seq<byte> := FourCC("data")

  /** The fields of the header, in file order. */
  datatype WavHeader = WavHeader(
    riff: seq<byte>,
    chunkSize: u32,
    wave: seq<byte>,
    fmt: seq<byte>,
    subchunk1Size: u32,
    audioFormat: u16,
    numChannels: u16,
    sampleRate: u32,
    byteRate: u32,
    blockAlign: u16,
    bitsPerSample: u16,
    data: seq<byte>,
    dataSize: u32)

  /** The four-character codes are the ones a WAVE file carries. */
  predicate Tagged(h: WavHeader)
  {
    h.riff == RIFF_TAG && h.wave == WAVE_TAG && h.fmt == FMT_TAG && h.data == DATA_TAG
  }

  /** 36 + dataSize in `uint32_t` arithmetic: the size of the RIFF chunk after
      its own 8-byte header, 36 header bytes plus the sample data. */
  function ChunkSizeFor(dataSize: u32): (c: u32)
    ensures dataSize < U32_MODULUS - 36 ==> c == dataSize + 36
    ensures dataSize >= U32_MODULUS - 36 ==> c == dataSize + 36 - U32_MODULUS && c < 36
  {
    (36 + dataSize) % U32_MODULUS
  }

  /** The header of a mono 16-bit 44100 Hz PCM file whose data chunk holds
      `dataSize` bytes, every derived field computed as the WAVE format
      defines it (byte rate = rate * block size, block size = channels *
      bytes per sample). */
  function PcmHeader(dataSize: u32): (h: WavHeader)
    ensures Tagged(h)
  {
    WavHeader(RIFF_TAG, ChunkSizeFor(dataSize), WAVE_TAG, FMT_TAG, FMT_CHUNK_SIZE,
              WAVE_FORMAT_PCM, NUM_CHANNELS, SAMPLE_RATE,
              SAMPLE_RATE * NUM_CHANNELS as int * BITS_PER_SAMPLE as int / 8,
              NUM_CHANNELS * BITS_PER_SAMPLE / 8, BITS_PER_SAMPLE, DATA_TAG, dataSize)
  }

  /** The bytes of the header as `fwrite(&header, sizeof header, 1, f)` emits them. */
  function Serialize(h: WavHeader): (r: seq<byte>)
    requires |h.riff| == 4 && |h.wave| == 4 && |h.fmt| == 4 && |h.data| == 4
    ensures |r| == HEADER_SIZE
  {
    h.riff + Le32(h.chunkSize) + h.wave + h.fmt + Le32(h.subchunk1Size)
    + Le16(h.audioFormat) + Le16(h.numChannels) + Le32(h.sampleRate) + Le32(h.byteRate)
    + Le16(h.blockAlign) + Le16(h.bitsPerSample) + h.data + Le32(h.dataSize)
  }

  /** Reads a header back from the first 44 bytes of a file, as a WAVE reader
      does; fails when the file is too short or a four-character code is wrong. */
  function ParseHeader(s: seq<byte>): (r: Option<WavHeader>)
    ensures r.Some? ==> Tagged(r.value) && |s| >= HEADER_SIZE
    ensures r.Some? ==> r.value.chunkSize == U32At(s, CHUNK_SIZE_OFFSET)
    ensures r.Some? ==> r.value.dataSize == U32At(s, DATA_SIZE_OFFSET)
  {
    if |s| < HEADER_SIZE || s[0..4] != RIFF_TAG || s[8..12] != WAVE_TAG
       || s[12..16] != FMT_TAG || s[36..40] != DATA_TAG
    then None
    else Some(WavHeader(s[0..4], U32At(s, 4), s[8..12], s[12..16], U32At(s, 16),
                        U16At(s, 20), U16At(s, 22), U32At(s, 24), U32At(s, 28),
                        U16At(s, 32), U16At(s, 34), s[36..40], U32At(s, 40)))
  }

  /** Every tagged header is read back exactly as it was written. */
  lemma ParseSerialize(h: WavHeader)
    requires Tagged(h)
    ensures ParseHeader(Serialize(h)) == Some(h)
  {
    var s := Serialize(h);
    assert s[0..4] == h.riff;
    assert s[4..8] == Le32(h.chunkSize);
    assert s[8..12] == h.wave;
    assert s[12..16] == h.fmt;
    assert s[16..20] == Le32(h.subchunk1Size);
    assert s[20..22] == Le16(h.audioFormat);
    assert s[22..24] == Le16(h.numChannels);
    assert s[24..28] == Le32(h.sampleRate);
    assert s[28..32] == Le32(h.byteRate);
    assert s[32..34] == Le16(h.blockAlign);
    assert s[34..36] == Le16(h.bitsPerSample);
    assert s[36..40] == h.data;
    assert s[40..44] == Le32(h.dataSize);
    ReadField32(s, 4, h.chunkSize);
    ReadField32(s, 16, h.subchunk1Size);
    ReadField32(s, 24, h.sampleRate);
    ReadField32(s, 28, h.byteRate);
    ReadField32(s, 40, h.dataSize);
    ReadField16(s, 20, h.audioFormat);
    ReadField16(s, 22, h.numChannels);
    ReadField16(s, 32, h.blockAlign);
    ReadField16(s, 34, h.bitsPerSample);
  }

  lemma ReadField32(s: seq<byte>, off: nat, v: u32)
    requires off + 4 <= |s| && s[off..off + 4] == Le32(v)
    ensures U32At(s, off) == v
  {
    Le32RoundTrip(v);
    U32AtSlice(s, off, off, off + 4);
  }

  lemma ReadField16(s: seq<byte>, off: nat, v: u16)
    requires off + 2 <= |s| && s[off..off + 2] == Le16(v)
    ensures U16At(s, off) == v
  {
    Le16RoundTrip(v);
    U16AtSlice(s, off, off, off + 2);
  }

  /** What a WAVE reader learns from the header the converter writes: mono
      16-bit PCM at 44100 Hz, a consistent byte rate and block size, and the
      two size fields as given. */
  lemma PcmHeaderReadsBack(dataSize: u32)
    ensures ParseHeader(Serialize(PcmHeader(dataSize))).Some?
    ensures var h := ParseHeader(Serialize(PcmHeader(dataSize))).value;
      && h.audioFormat == WAVE_FORMAT_PCM && h.subchunk1Size == 16
      && h.sampleRate == 44100 && h.numChannels == 1 && h.bitsPerSample == 16
      && h.blockAlign == h.numChannels * h.bitsPerSample / 8 == 2
      && h.byteRate == h.sampleRate * h.blockAlign == 88200
      && h.chunkSize == (36 + dataSize) % U32_MODULUS && h.dataSize == dataSize
  {
    ParseSerialize(PcmHeader(dataSize));
  }

  /** The data size `finalize_wav_header` derives from a sample count:
      channels * bytes per sample * samples, in `uint32_t` arithmetic. */
  function DataSizeFor(totalSamples: u32): (d: u32)
    ensures d == (2 * totalSamples) % U32_MODULUS
  {
    (totalSamples * NUM_CHANNELS as int * (BITS_PER_SAMPLE as int / 8)) % U32_MODULUS
  }

  /** The file after the size fields are patched: `36 + dataSize` written at
      offset 4, then `dataSize` written at offset 40. */
  function Finalized(file: seq<byte>, totalSamples: u32): (r: seq<byte>)
    ensures |r| == Max(|file|, HEADER_SIZE)
  {
    var dataSize := DataSizeFor(totalSamples);
    Overwrite(Overwrite(file, CHUNK_SIZE_OFFSET, Le32(ChunkSizeFor(dataSize))), DATA_SIZE_OFFSET, Le32(dataSize))
  }

  /** Patching a file that already holds a header changes exactly the two size
      fields, which then read `36 + 2 * totalSamples` and `2 * totalSamples`
      modulo 2^32; its length and every other byte stay as they were. */
  lemma FinalizedFields(file: seq<byte>, totalSamples: u32)
    requires |file| >= HEADER_SIZE
    ensures var r := Finalized(file, totalSamples);
      && |r| == |file|
      && U32At(r, CHUNK_SIZE_OFFSET) == (36 + 2 * totalSamples) % U32_MODULUS
      && U32At(r, DATA_SIZE_OFFSET) == (2 * totalSamples) % U32_MODULUS
      && forall k :: 0 <= k < |file| && !(4 <= k < 8) && !(40 <= k < 44) ==> r[k] == file[k]
  {
    var dataSize := DataSizeFor(totalSamples);
    var chunkSize := ChunkSizeFor(dataSize);
    var o := Overwrite(file, CHUNK_SIZE_OFFSET, Le32(chunkSize));
    var r := Overwrite(o, DATA_SIZE_OFFSET, Le32(dataSize));
    OverwriteContents(file, CHUNK_SIZE_OFFSET, Le32(chunkSize));
    OverwriteContents(o, DATA_SIZE_OFFSET, Le32(dataSize));
    assert r[4..8] == Le32(chunkSize) by {
      forall k | 0 <= k < 4 ensures r[4 + k] == Le32(chunkSize)[k] {
        assert r[4 + k] == o[4 + k];
      }
    }
    assert r[40..44] == Le32(dataSize);
    ReadField32(r, CHUNK_SIZE_OFFSET, chunkSize);
    ReadField32(r, DATA_SIZE_OFFSET, dataSize);
    ChunkSizeWraps(totalSamples);
  }

  /** Reducing the data size modulo 2^32 before adding 36 changes nothing. */
  lemma ChunkSizeWraps(totalSamples: u32)
    ensures ChunkSizeFor(DataSizeFor(totalSamples)) == (36 + 2 * totalSamples) % U32_MODULUS
  {
    var q := (2 * totalSamples) / U32_MODULUS;
    assert 2 * totalSamples == q * U32_MODULUS + DataSizeFor(totalSamples);
    assert 0 <= q <= 1;
  }

  /** Patching the placeholder header (written with data size 0) gives the
      very header that would have been written had the final sample count
      been known up front. */
  lemma PatchedPlaceholder(totalSamples: u32)
    ensures Finalized(Serialize(PcmHeader(0)), totalSamples) == Serialize(PcmHeader(DataSizeFor(totalSamples)))
  {
    var before := Serialize(PcmHeader(0));
    var after := Serialize(PcmHeader(DataSizeFor(totalSamples)));
    var d := DataSizeFor(totalSamples);
    var c := ChunkSizeFor(d);
    var o := Overwrite(before, CHUNK_SIZE_OFFSET, Le32(c));
    var r := Overwrite(o, DATA_SIZE_OFFSET, Le32(d));
    OverwriteContents(before, CHUNK_SIZE_OFFSET, Le32(c));
    OverwriteContents(o, DATA_SIZE_OFFSET, Le32(d));
    forall k | 0 <= k < HEADER_SIZE
      ensures r[k] == after[k]
    {
      if 4 <= k < 8 {
        assert r[4 + (k - 4)] == o[4 + (k - 4)] == Le32(c)[k - 4];
      } else if 40 <= k < 44 {
        assert r[40 + (k - 40)] == Le32(d)[k - 40];
      }
    }
  }

  /** Patching the file gives the header for the final size followed by the
      untouched sample data. */
  lemma FinalizePlaceholder(samples: seq<byte>, totalSamples: u32)
    ensures Finalized(Serialize(PcmHeader(0)) + samples, totalSamples)
         == Serialize(PcmHeader(DataSizeFor(totalSamples))) + samples
  {
    var header := Serialize(PcmHeader(0));
    var d := DataSizeFor(totalSamples);
    OverwriteWithin(header, samples, CHUNK_SIZE_OFFSET, Le32(ChunkSizeFor(d)));
    OverwriteWithin(Overwrite(header, CHUNK_SIZE_OFFSET, Le32(ChunkSizeFor(d))), samples, DATA_SIZE_OFFSET, Le32(d));
    PatchedPlaceholder(totalSamples);
  }
}
