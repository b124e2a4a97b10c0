# ImageSpectrogram in Dafny

ImageSpectrogram turns a picture into sound whose spectrogram looks like the picture. The image is decoded to a row-major RGB buffer. Each column of pixels becomes 0.2 s of mono 16-bit PCM audio at 44100 Hz. Each bright enough pixel of the column contributes one sine tone. The row sets the pitch: the top row sounds near 22000 Hz and lower rows sound lower. Brightness sets loudness. The output is a RIFF/WAVE file. It is written with a placeholder header, the column blocks follow in order, and the two size fields are backpatched at the end.

The repository has two converters:

- `imageSpectrogram.c` reads PNG or JPEG, chooses the decoder from the file name's suffix, and rounds each pitch down to whole hertz.
- `imageSpectrogram_onlyPng.c` reads PNG only. It builds the header from literal values and does not round the pitch.

Their `add_sine` functions are the same code.

The model has these modules:

- `Bytes`: fixed-width integers and little-endian encodings.
- `OutFile`: the output stream as a class, holding the contents and the position that `fwrite` and `fseek` change.
- `Riff`: the 44-byte header, its parser, and the backpatch as a function on the file contents.
- `Synth`: a column's tone set, the PCM block `add_sine` renders from it, and the finished file as a function of the column tone sets.
- `Pixels`: the inclusion test, attenuation, the pitch ramp, and the tone set of each column.
- `Render`: `add_sine` as a method with loops, and the shape of the file while the column loop runs.
- `ImageSpectrogram` and `ImageSpectrogramPng`: each converter's header writer, backpatch, column loop and `main` from the placeholder header to the backpatch. The first also has the file-name test.

Each converter's `Convert` method writes the whole file through the stream. It is proved to leave exactly `Synth.WavFile` of the image's column tone sets. The lemmas about `WavFile` and the column tone sets carry the properties: layout, length, header fields, silence and ordering.

White (brightness 765) never reaches attenuation 0. The code divides by `256.0 * 3.0 = 768` (`imageSpectrogram.c:110`, `imageSpectrogram_onlyPng.c:121`), so white gives `4.25 * 3 / 768`. The `(int16_t)` cast truncates toward zero, and so does the model.

## Model

| member | source | states |
|---|---|---|
| Bytes.Le32RoundTrip | imageSpectrogram.c:241-242 | reading back the four little-endian bytes written for a `uint32_t` field gives the value |
| Bytes.U32AtRoundTrip | imageSpectrogram.c:241-242 | re-encoding the value read from any four bytes gives those bytes, so the encoding is a bijection |
| Bytes.Le16RoundTrip | imageSpectrogram.c:234-239 | reading back the two bytes of a `uint16_t` field gives the value |
| Bytes.I16RoundTrip | imageSpectrogram.c:263-264 | a signed sample read back from the two bytes `fwrite` emits for it is the same sample |
| Bytes.U32AtSlice | imageSpectrogram.c:245-252 | a 32-bit field reads the same from any window of the file that contains it |
| Bytes.U16AtSlice | imageSpectrogram.c:234-239 | a 16-bit field reads the same from any window of the file that contains it |
| OutFile.Put | imageSpectrogram.c:264 | storing a byte sets that position, pads a short file with zeros, and leaves every other byte alone |
| OutFile.Overwrite | imageSpectrogram.c:242 | the length after a write is the old length, or the end of the written data if that is further |
| OutFile.OverwriteContents | imageSpectrogram.c:249-251 | a write puts `data` at `at`, keeps the bytes before and after it, zero-fills any gap, and changes nothing when `data` is empty |
| OutFile.OverwriteConsecutive | imageSpectrogram.c:256-265 | two writes that follow each other equal one write of both, which is why `add_sine`'s per-sample writes add up to one block |
| OutFile.OverwriteWithin | imageSpectrogram.c:247-251 | a write that ends inside a prefix leaves everything after that prefix untouched |
| OutFile.OverwriteAtEnd | imageSpectrogram.c:264 | writing at the end of the file appends |
| OutFile.OutputFile.Open | imageSpectrogram.c:86 | `fopen(…, "wb")` gives an empty file positioned at 0 |
| OutFile.OutputFile.Write | imageSpectrogram.c:242 | `fwrite` overwrites at the position and advances the position by the data's length |
| OutFile.OutputFile.Seek | imageSpectrogram.c:247 | `fseek(…, SEEK_SET)` moves the position and leaves the contents alone |
| Riff.FourCC | imageSpectrogram.c:229-232 | a four-character code is four bytes |
| Riff.PcmHeader | imageSpectrogram.c:228-241 | the header for a data size carries the four WAVE tags |
| Riff.ChunkSizeFor | imageSpectrogram.c:230 | `36 + data_size` in `uint32_t`: exactly `data_size + 36` unless that passes 2^32, and then it wraps to a value below 36 |
| Riff.Serialize | imageSpectrogram.c:242 | the header is exactly 44 bytes, with the fields in declaration order and no padding |
| Riff.ParseHeader | imageSpectrogram.c:30-44 | a successful parse has the right tags, needs at least 44 bytes, and reads the two size fields at offsets 4 and 40 |
| Riff.ParseSerialize | imageSpectrogram.c:227-243 | every tagged header parses back to itself (header round trip) |
| Riff.ReadField32 | imageSpectrogram.c:241 | a 32-bit field written at an offset reads back at that offset |
| Riff.ReadField16 | imageSpectrogram.c:234-239 | a 16-bit field written at an offset reads back at that offset |
| Riff.PcmHeaderReadsBack | imageSpectrogram.c:230-241 | a reader sees PCM, mono, 16 bits, 44100 Hz, block size 2, byte rate 88200, chunk size `36 + dataSize` mod 2^32 and the given data size |
| Riff.DataSizeFor | imageSpectrogram.c:246 | the data size is `2 * total_samples` modulo 2^32 |
| Riff.Finalized | imageSpectrogram.c:245-252 | the contents after the backpatch: `36 + data_size` written at offset 4, then `data_size` at offset 40; the file is never shortened, and a file shorter than 44 bytes grows to 44 |
| Riff.FinalizedFields | imageSpectrogram.c:245-252 | after the backpatch the file has the same length, offsets 4 and 40 read `36 + 2*total` and `2*total` modulo 2^32, and every other byte is unchanged |
| Riff.ChunkSizeWraps | imageSpectrogram.c:246-248 | wrapping the data size to 32 bits before adding 36 gives `36 + 2*total` modulo 2^32 |
| Riff.PatchedPlaceholder | imageSpectrogram.c:93 | backpatching the placeholder header (data size 0) gives exactly the header for the final size |
| Riff.FinalizePlaceholder | imageSpectrogram.c:125 | backpatching the header-plus-samples file gives the final header followed by the untouched samples |
| Synth.BlockSize | imageSpectrogram.c:255 | `(int)(0.2 * 44100)` is 8820 samples, or 17640 bytes |
| Synth.TruncateTowardZero | imageSpectrogram.c:263 | the C conversion drops the fraction: the result is within 1 of the value, on the side toward zero |
| Synth.ToInt16 | imageSpectrogram.c:263 | `(int16_t)` of a value whose truncation fits in 16 bits is that truncation |
| Synth.SumTerms | imageSpectrogram.c:258-261 | the sum of the tone terms at time `t`, added in tone order as the inner loop adds them |
| Synth.ColumnValue | imageSpectrogram.c:258-262 | the column signal: 0 with no tone, and with a single tone exactly that tone's term (no division) |
| Synth.SampleAt | imageSpectrogram.c:257-263 | sample `pos` is the column signal at time `pos / 44100`, times 32767, cast to `int16_t`; a column with no tone gives sample 0 |
| Synth.Block | imageSpectrogram.c:254-266 | a column's block has 8820 samples, however many tones it has |
| Synth.PcmBytes | imageSpectrogram.c:264 | the bytes of a run of samples, each written as two little-endian bytes, in order (layout in `Synth.PcmBytesLayout`) |
| Synth.PcmBytesLayout | imageSpectrogram.c:264 | `n` samples take `2n` bytes, and sample `k` is at bytes `2k` and `2k+1` |
| Synth.PcmBytesNext | imageSpectrogram.c:264 | the bytes of one more sample are the earlier bytes followed by that sample's two bytes |
| Synth.SilentBlock | imageSpectrogram.c:262 | a column with no tone is 8820 zero samples, so every byte written for it is 0 |
| Synth.ZeroBytes | imageSpectrogram.c:264 | zero samples are written as zero bytes |
| Synth.ColumnValueBounded | imageSpectrogram.c:259-262 | when every tone's term lies within a bound, the averaged column signal does too, whatever the number of tones |
| Synth.SumBounded | imageSpectrogram.c:259-261 | a sum of `n` terms each within `bound` lies within `n * bound` |
| Synth.ColumnsBytesLayout | imageSpectrogram.c:96-121 | the sample data is `17640 * width` bytes, with column `x`'s block at bytes `17640x` to `17640(x+1)` |
| Synth.WavFile | imageSpectrogram.c:93-125 | the finished file: the header for `8820 * width` samples (modulo 2^32), then each column's block in column order (length in `Synth.WavFileLength`, fields in `Synth.WavFileHeader`) |
| Synth.WavFileLength | imageSpectrogram.c:93-125 | the finished file is `44 + 17640 * width` bytes and begins with the header for the final size |
| Synth.WavFileHeader | imageSpectrogram.c:245-252 | in the finished file, data_size is the length minus 44 and chunk_size the length minus 8 (both modulo 2^32), and the file reads as mono 16-bit PCM at 44100 Hz |
| Synth.ReadsAsHeader | imageSpectrogram.c:93-125 | a file that starts with the header for a data size parses as exactly that header, with the size fields at offsets 4 and 40, whatever follows |
| Synth.ParsePrefix | imageSpectrogram.c:30-44 | a header is read from the first 44 bytes alone |
| Synth.DataSizeWraps | imageSpectrogram.c:119 | a sample total wrapped to 32 bits and then doubled gives `17640 * width` modulo 2^32, and adding 36 gives `17640 * width + 36` modulo 2^32 |
| Synth.WavFileColumn | imageSpectrogram.c:118 | column `x`'s block is at bytes `44 + 17640x` to `44 + 17640(x+1)` of the file |
| Pixels.PixelInBounds | imageSpectrogram.c:102-105 | for every pixel, `idx`, `idx+1` and `idx+2` lie inside the `width*height*3` buffer |
| Pixels.RowInBounds | imageSpectrogram.c:102 | pixel (x, y) is pixel number `y * width + x`, which is below `width * height` |
| Pixels.PixelAt | imageSpectrogram.c:102-105 | the `(r, g, b)` of pixel `(x, y)`: the three bytes from `(y * width + x) * 3` |
| Pixels.Qualifies | imageSpectrogram.c:107 | the inclusion test `r > 10 \|\| (g > 10 && b > 10)`: a pixel whose channels sum to at most 10 never sounds, nor one with red and green both at most 10, and a grey pixel sounds exactly when its level is above 10 |
| Pixels.Attenuation | imageSpectrogram.c:110 | attenuation lies in [4.25*3/768, 4.25] and is positive; black gives 4.25, white gives 4.25*3/768 |
| Pixels.AttenuationDecreasing | imageSpectrogram.c:110 | attenuation never rises with brightness, and falls strictly when brightness rises strictly |
| Pixels.RawFrequency | imageSpectrogram_onlyPng.c:122 | the pitch ramp `22000 - ((y + 1) / (height + 1)) * 22000` (closed form, range and order in the three lemmas below) |
| Pixels.RawFrequencyClosedForm | imageSpectrogram_onlyPng.c:122 | the pitch ramp equals `22000 * (height - y) / (height + 1)` |
| Pixels.RawFrequencyRange | imageSpectrogram_onlyPng.c:122 | every row's unrounded pitch lies strictly between 0 and 22000 Hz |
| Pixels.RawFrequencyDecreasing | imageSpectrogram_onlyPng.c:122 | a lower row has a strictly lower unrounded pitch |
| Pixels.QualifyingRowsMembers | imageSpectrogram.c:101-108 | a row contributes a tone exactly when its pixel has `r > 10 \|\| (g > 10 && b > 10)` |
| Pixels.ColumnTones | imageSpectrogram.c:101-116 | the tones of the first `n` rows of a column, one per qualifying pixel in row order; there are at most `n` |
| Pixels.QualifyingRowsOrdered | imageSpectrogram.c:101-116 | contributing rows are listed top to bottom, each once, so there are at most `height` of them |
| Pixels.ColumnTonesFromRows | imageSpectrogram.c:101-116 | tone `i` of a column comes from its `i`-th contributing row |
| Pixels.AllQualifyingRows | imageSpectrogram.c:107-108 | a column whose pixels all qualify yields one tone per row |
| Pixels.NoQualifyingRows | imageSpectrogram.c:107-108 | a column with no qualifying pixel yields no tone |
| Pixels.ImageColumns | imageSpectrogram.c:96 | one tone set per column |
| Pixels.ImageColumnsAt | imageSpectrogram.c:96-117 | entry `x` is column `x`'s tone set |
| Pixels.ColumnTonesPrefix | imageSpectrogram.c:101-116 | scanning more rows only appends tones |
| Pixels.ToneCountWithinCapacity | imageSpectrogram.c:97-99 | a column yields at most `height` tones, so `height <= 2048` keeps it within the arrays |
| Pixels.TallWhiteColumnOverflows | imageSpectrogram.c:97-115 | a white 1x2049 image yields 2049 tones, one more than the arrays hold |
| Pixels.ImageColumnsStep | imageSpectrogram.c:118 | one more column appends that column's 17640-byte block to the sample data |
| Render.MixTones | imageSpectrogram.c:258-262 | the loop's value is the sum of the tone terms, divided by the number of tones when there is at least one |
| Render.SampleWritten | imageSpectrogram.c:263-264 | writing sample `pos` after samples `0..pos` leaves samples `0..pos+1` written |
| Render.AddSine | imageSpectrogram.c:254-266 | `add_sine` writes exactly the bytes of the column's 8820-sample block at the position, and advances it by 17640 |
| Render.HeaderWritten | imageSpectrogram.c:93 | after the placeholder header the file holds 44 bytes and no column |
| Render.ColumnWritten | imageSpectrogram.c:118 | rendering column `x` at the end of the file extends the header-plus-columns invariant to `x + 1` and grows the file by 17640 bytes |
| Render.FileFinished | imageSpectrogram.c:125 | backpatching the header-plus-all-columns file gives the finished WAV file |
| ImageSpectrogram.ToneFrequency | imageSpectrogram.c:111 | the floored pitch: a whole number of hertz, less than 1 Hz below the unrounded ramp and not above it |
| ImageSpectrogram.FrequencyRange | imageSpectrogram.c:111 | every rounded pitch lies in [0, 22000) (whole hertz by `ToneFrequency`'s contract) |
| ImageSpectrogram.FrequencyNonIncreasing | imageSpectrogram.c:111 | a lower row never has a higher rounded pitch |
| ImageSpectrogram.ColumnTonesOrdered | imageSpectrogram.c:101-116 | a column's tones have pitches in [0, 22000), never rising along the set, and attenuations in [4.25*3/768, 4.25] |
| ImageSpectrogram.SingleWhitePixel | imageSpectrogram.c:107-115 | a 1x1 white image gives exactly one tone, at 11000 Hz, with attenuation 4.25*3/768 |
| ImageSpectrogram.WriteWavHeader | imageSpectrogram.c:227-243 | writes the 44-byte mono 16-bit PCM header for `data_size` at the position |
| ImageSpectrogram.FinalizeWavHeader | imageSpectrogram.c:245-252 | leaves the file backpatched at offsets 4 and 40, and the position at 44 |
| ImageSpectrogram.ExtractColumn | imageSpectrogram.c:99-116 | fills the arrays with exactly the column's tone set, in row order, returns its size, and leaves the slots from `count` on untouched |
| ImageSpectrogram.RenderColumn | imageSpectrogram.c:97-119 | one column-loop iteration extends the header-plus-columns invariant by one column |
| ImageSpectrogram.Convert | imageSpectrogram.c:93-125 | the file written is exactly the WAV file of the image's rounded-pitch column tone sets |
| ImageSpectrogram.ToLower | imageSpectrogram.c:273 | ASCII `tolower`: upper-case letters become the matching lower-case letters, every other character is unchanged, and the result is never upper case |
| ImageSpectrogram.CaseInsensitiveEqual | imageSpectrogram.c:273 | `strcasecmp(a, b) == 0` iff the lengths match and the characters match after ASCII lower-casing |
| ImageSpectrogram.EndsWith | imageSpectrogram.c:268-274 | true iff both strings exist, the suffix is no longer, and the string's tail equals the suffix ignoring case |
| ImageSpectrogram.EndsWithIgnoresCase | imageSpectrogram.c:273 | suffixes that differ only in case give the same answer |
| ImageSpectrogram.PngSuffixEitherCase | imageSpectrogram.c:72 | testing ".png" and testing ".PNG" give the same answer |
| ImageSpectrogram.DecoderFor | imageSpectrogram.c:72-79 | PNG iff the name ends in ".png" in any case; JPEG iff not, and it ends in ".jpg" or ".jpeg" in any case; otherwise refused |
| ImageSpectrogramPng.FrequencyRange | imageSpectrogram_onlyPng.c:122 | every pitch lies strictly between 0 and 22000 Hz |
| ImageSpectrogramPng.ColumnTonesOrdered | imageSpectrogram_onlyPng.c:117-124 | a column's tones have pitches strictly between 0 and 22000 that strictly fall along the set, and attenuations in [4.25*3/768, 4.25] |
| ImageSpectrogramPng.PitchesWithinOneHertz | imageSpectrogram_onlyPng.c:122 | the two converters find the same number of tones per column with the same attenuations, and each rounded pitch is within 1 Hz below the unrounded one |
| ImageSpectrogramPng.SingleWhitePixel | imageSpectrogram_onlyPng.c:117-124 | a 1x1 white image gives one tone, at 11000 Hz, with attenuation 4.25*3/768 |
| ImageSpectrogramPng.WriteWavHeader | imageSpectrogram_onlyPng.c:38-44 | the literal-valued header writes the same 44 bytes as the computed one |
| ImageSpectrogramPng.FinalizeWavHeader | imageSpectrogram_onlyPng.c:46-53 | `total_samples * 2` backpatching leaves the same file as the other converter's, with the position at 44 |
| ImageSpectrogramPng.ExtractColumn | imageSpectrogram_onlyPng.c:116-124 | fills the arrays with exactly the column's unrounded-pitch tone set, in row order, and leaves the slots from `n` on untouched |
| ImageSpectrogramPng.RenderColumn | imageSpectrogram_onlyPng.c:116-126 | one column-loop iteration extends the header-plus-columns invariant by one column |
| ImageSpectrogramPng.Convert | imageSpectrogram_onlyPng.c:112-131 | the file written is exactly the WAV file of the image's unrounded-pitch column tone sets |

## Left out

- A C string is modelled as `Option<string>`, one `char` per byte, and `None` for a null pointer. The model assumes no `'\0'` inside the string and no character above `0xFF`; a string that breaks this (such as `"a\0.png"`, which C reads as `"a"`) has no C counterpart, and `ImageSpectrogram.EndsWith` says nothing about C for it.
- Image decoding (`read_png`, `read_jpeg`, and the libpng-based `read_png` of the PNG-only converter) is not part of this model. Each converter starts from a decoded buffer of `width * height * 3` bytes.
- `Pixels.ValidImage` (three bytes per pixel) is an assumption about the decoder that `read_png` (`imageSpectrogram.c:158-171`) does not always meet. A grayscale PNG stays at one byte per pixel, because there is no gray-to-RGB conversion. An RGB or palette PNG with a tRNS chunk gains an alpha channel that is never stripped, because the alpha strip depends on the original colour type. For such images `(y * width + x) * 3` (`imageSpectrogram.c:102-105`) reads the wrong bytes or past the buffer, and the model says nothing about them.
- Command-line handling is not modelled: argument count, the output name, `strncpy`/`snprintf`, and the usage message. Failures of `fopen`, `perror`, progress messages and `free` are left out too. They are I/O with no effect on the file's contents.
- `OutFile.OutputFile.Write` and `OutFile.OutputFile.Seek` model calls that succeed. The C ignores the results of `fwrite`, `fseek` and `fclose` (`imageSpectrogram.c:126`, `242`, `247-251`, `264`; `imageSpectrogram_onlyPng.c:43`, `48-52`, `96`, `132`) and reports success regardless. A short write, a failed seek or a failed flush at `fclose` leaves a file that differs from `Synth.WavFile`. `fclose` itself is not modelled: the model takes the stream's buffered bytes, including the final `data_size` patch at offset 40, to reach the file.
- The sine term `sin(2*pi*f*t) * 10 / pow(10, a)` is a parameter (`Synth.ToneTerm`) about which nothing is assumed. Floating-point libm calls have no Dafny counterpart.
- `double` arithmetic is modelled on exact reals. The IEEE rounding of the mixing, the division by `count` and the scaling by 32767 is not modelled.
- ImageSpectrogram.ToneFrequency: floors the exact ramp. Where the exact ramp is a whole number, the `double` expression of `imageSpectrogram.c:111` can come out just below it and floor 1 Hz lower (for height 19, row 10, the exact ramp is 9900 and the rounded `double` is 9899.999999999998), so the model's pitch can be 1 Hz above the C's there.
- Synth.ToInt16: a value outside the 16-bit range, which C leaves undefined, is wrapped modulo 2^16. This is not an edge case: a term's amplitude `10 / 10^a` exceeds 1 whenever `r + g + b >= 588`, and a white pixel alone in its column has amplitude about 9.6, so `val * 32767.0` reaches about 315000 and the cast at `imageSpectrogram.c:263` is undefined for most of that column's samples. The model's output for such columns is one choice among what a compiler may do.
- The file layout assumes a little-endian host and a `WAVHeader` struct without padding. The fields are 4-byte aligned, so common compilers add none.
- Signed `int` overflow is not modelled. `total_samples` is unbounded and reduced modulo 2^32 when passed as `uint32_t`, which is what two's complement wrap-around gives. `idx = (y * width + x) * 3` is computed exactly.
- ImageSpectrogram.ExtractColumn and ImageSpectrogramPng.ExtractColumn require each column to yield at most 2048 tones. The C code writes past its stack arrays otherwise, which is undefined behaviour. `Pixels.ToneCountWithinCapacity` shows that `height <= 2048` suffices, and `Pixels.TallWhiteColumnOverflows` shows an image that breaks the bound.
- The PNG-only converter's `add_sine` (`imageSpectrogram_onlyPng.c:87-98`) is the same code as the other converter's, and both are modelled by `Render.AddSine`. The only difference is the literal `32767` in place of `32767.0`, which C converts to the same `double`.
