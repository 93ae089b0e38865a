# music-auto-text core, modelled in Dafny

music-auto-text is a WPF lyrics player. It plays an audio file, fetches or guesses its lyrics, and aligns each lyric line to the audio with a small neural onset detector. It also has a real-time visualiser over the system's loopback audio, and a "now playing" detector that reads window titles of Spotify, Yandex Music and other players. A helper Python script turns a forced-alignment result into a word list.

This project models the computational core of those parts. Each source file becomes one module:

- `fft.dfy` (`Fft`) is the in-place radix-2 Cooley–Tukey FFT of `NeuralAligner.cs` and `RealTimeAudioService.cs`. It covers `ReverseBits`, the swap-when-`j > i` bit-reversal pass and the butterfly stages over an `array`. The proofs are about index structure, not numerical accuracy.
- `features.dfy` (`Features`) is the per-window feature extractor of `ExtractFeaturesFromFile`:
  - channel averaging to mono;
  - RMS, zero-crossing rate and peak;
  - zero padding to a power of two ≥ 64;
  - the normalised spectral centroid;
  - the read loop that cuts the sample stream into windows and stamps them.
- `mlp.dfy` (`Mlp`) has two parts:
  - `TrainFromDb`: column means and standard deviations, normalisation, label binarisation, weight initialisation, and per-sample SGD over one hidden ReLU layer with a sigmoid output;
  - `PredictProbabilities`: standardisation, scoring and 3-tap smoothing.
- `line_align.dfy` (`LineAlign`) is `AlignTextToAudioWithModel`:
  - a character-fraction estimate of each line's frame;
  - a ±4-frame search with a penalty for going earlier;
  - the fallback and scream flags;
  - the strict-monotonic timestamp post-pass.
- `visualizer.dfy` (`Visualizer`) is `RealTimeAudioService`. It decodes 16-bit PCM or 32-bit float buffers, mixes them to mono and prepends the carried-over `_leftover`. It then steps 50%-overlap windows, computes 32 band levels with clamped bin ranges, and normalises them by the peak. The class `RealTimeAudio` holds `_leftover` as a `seq` field.
- `lyrics_line.dfy` (`Lyrics`) is the shared `LyricsLine` record and evenly timestamped line lists.
- `lyrics_service.dfy` (`LyricsService`) is `FetchLyricsByFilenameAsync` and `ParseLyricsToLines`:
  - the file-name → artist/title split, with the exact .NET `Split('-', 2, RemoveEmptyEntries)` behaviour;
  - the source-selection guards;
  - the word fallback;
  - the line parser.
- `player.dfy` (`Player`) is the main window's logic:
  - `FormatTime` and the seek clamps;
  - regrouping words into 6-word chunks;
  - fallback detection and the title filter;
  - the highlighted-line lookup.
  
  The class `PlayerWindow` holds the play/pause, timer, settings-scale and lyric state that the event handlers update.
- `music_info.dfy` (`NowPlaying`) is the title heuristics of `MusicInfoService`:
  - the Spotify, Yandex (UI texts, marked window, browser tabs) and other-player parsers;
  - the priority order;
  - the cover-URL predicate.
  
  The class `Watcher` holds `_lastTrack` and `_lastTrackKey`.
- `forced_align.dfy` (`ForcedAlign`) is the word list of `whisper_forced_align.py`. It uses the aligner's word segments when present, and otherwise splits each transcript segment evenly.
- `strings.dfy` (`Strings`) holds the .NET string operations the core uses: `Trim`, `IndexOf`, `Contains`, `Replace`, `Split` (by string, and by characters with empty entries removed), and `ToLowerInvariant`.

Conventions:

- `double` is `real`. `TimeSpan` is whole milliseconds.
- Floating-point library functions are passed in as function parameters. This covers `Math.Sqrt`, `Exp`, `Cos`/`Sin` twiddles, `Complex.Magnitude`, `Tanh`, `Log10`/`Pow` band edges, Hamming, and the `BitConverter` float decode. Only the facts the code relies on are required of them: a square root of a non-negative number is non-negative and √0 = 0, exp is positive, and magnitudes are non-negative with |0| = 0.
- Audio data, network answers, the process list, the top-level windows, UI Automation texts, random draws and the shuffle order are inputs.
- Strings are sequences of Unicode scalar values. White space is the set `char.IsWhiteSpace` accepts; the Python script uses the set `str.isspace()` accepts.

## Model

| member | source | states |
|---|---|---|
| Strings.TrimStartSpec | WpfApp1/Services/LyricsService.cs:19 | TrimStart removes exactly the leading white-space run: what it drops is all white and what it keeps starts with a non-white character or is empty |
| Strings.TrimEndSpec | WpfApp1/Services/LyricsService.cs:19 | TrimEnd removes exactly the trailing white-space run, symmetrically |
| Strings.TrimInfix | WpfApp1/Services/LyricsService.cs:19 | Trim(s) is the infix of s between its leading and trailing white runs |
| Strings.TrimChars | WpfApp1/Services/LyricsService.cs:137 | trimming introduces no character that was not in the input |
| Strings.TrimEnds | WpfApp1/Services/LyricsService.cs:137 | a trimmed string is empty or starts and ends with non-white characters |
| Strings.TrimEmptyIffBlank | WpfApp1/Services/LyricsService.cs:30 | Trim gives "" exactly for the strings string.IsNullOrWhiteSpace accepts |
| Strings.IndexOfOccurs | WpfApp1/Services/MusicInfoService.cs:288 | a found index is a real occurrence of the substring |
| Strings.IndexOfSpec | WpfApp1/Services/MusicInfoService.cs:288 | IndexOf finds the first occurrence, and None exactly when there is none |
| Strings.Replace | WpfApp1/Services/MusicInfoService.cs:204 | replacing a pattern that does not occur leaves the string unchanged |
| Strings.ReplaceSkips | WpfApp1/Services/MusicInfoService.cs:204 | Replace copies unchanged any prefix in which no occurrence of the pattern starts |
| Strings.ReplaceAtFirst | WpfApp1/Services/MusicInfoService.cs:204 | Replace copies the text before the first occurrence, puts the replacement in its place and carries on after it |
| Strings.ReplaceIsSplitJoin | WpfApp1/Services/MusicInfoService.cs:204 | Replace equals splitting on the pattern and joining the pieces with the replacement: every left-to-right, non-overlapping occurrence is replaced and nothing else changes |
| Strings.NotContainsAround | WpfApp1/Services/MusicInfoService.cs:575 | a pattern absent from p and q does not occur in p + m + q when its last character is not in m and m's last character is not in it |
| Strings.ReplaceSingle | WpfApp1/Services/MusicInfoService.cs:575 | a pattern whose last character occurs only at its end, placed after a text free of it, is replaced there and the search goes on after it |
| Strings.BeforeFirstOccurrence | WpfApp1/Services/MusicInfoService.cs:207 | the text before the first occurrence does not contain the pattern |
| Strings.SplitStrJoin | WpfApp1/Services/MusicInfoService.cs:207 | joining the pieces of Split(sep) with sep gives back the input (round trip) |
| Strings.SplitStrNoSep | WpfApp1/Services/MusicInfoService.cs:207 | no piece of Split(sep) contains sep |
| Strings.SplitStrContains | WpfApp1/Services/MusicInfoService.cs:390-392 | Split(sep) gives at least two pieces iff the string contains sep |
| Strings.NonEmpty | WpfApp1/Services/LyricsService.cs:132 | RemoveEmptyEntries keeps only non-empty pieces, each one of the original pieces |
| Strings.NonEmptyAppend | WpfApp1/Services/LyricsService.cs:132 | removing empty entries distributes over concatenation, so order is kept |
| Strings.SplitCharsNoSep | WpfApp1/Services/LyricsService.cs:132 | no piece of a split on a character set contains one of those characters |
| Strings.PiecesOfJoin | WpfApp1/Services/LyricsService.cs:132 | splitting a join of non-empty separator-free pieces, with empties removed, recovers the pieces (round trip) |
| Strings.WordsShape | WpfApp1/Services/LyricsService.cs:95 | every word of Split(' ', RemoveEmptyEntries) is non-empty and space-free |
| Strings.WordsOfJoin | WpfApp1/Services/LyricsService.cs:95 | splitting words joined by spaces recovers the words |
| Strings.ToLower | WpfApp1/MainWindow.xaml.cs:231 | lower-casing keeps the length and maps every character independently |
| Strings.ToLowerInfix | WpfApp1/MainWindow.xaml.cs:232 | lower-casing commutes with taking an infix |
| Lyrics.Timed | WpfApp1/Services/LyricsService.cs:133-138 | evenly timestamped lines carry the given texts in order |
| Lyrics.TimedIncreasing | WpfApp1/Services/LyricsService.cs:96-100 | the first line is at 0 and, with a positive step, timestamps strictly increase |
| LyricsService.LastIndexSpec | WpfApp1/Services/LyricsService.cs:19 | the last index of a character set is the last position holding one of them, None if there is none |
| LyricsService.FileNameSpec | WpfApp1/Services/LyricsService.cs:19 | the file name is the suffix after the last directory separator and contains no separator |
| LyricsService.FileNameWithoutExtensionSpec | WpfApp1/Services/LyricsService.cs:19 | the extension-free name is the file name up to its last '.', or all of it when there is no '.' |
| LyricsService.ReplaceChar | WpfApp1/Services/LyricsService.cs:19 | replacing '_' by ' ' changes exactly the '_' positions |
| LyricsService.BaseNameSpec | WpfApp1/Services/LyricsService.cs:19 | the base name has no '_', neither starts nor ends with white space, and is the part of the '_'→' ' extension-free file name between its white-space ends |
| LyricsService.FindSpec | WpfApp1/Services/LyricsService.cs:21 | Find gives the first position of the character, None when absent |
| LyricsService.DropLeadingRun | WpfApp1/Services/LyricsService.cs:21 | dropping the leading run of '-' leaves a string that is empty or starts with another character |
| LyricsService.Split2Shape | WpfApp1/Services/LyricsService.cs:21 | Split('-', 2, RemoveEmptyEntries) gives non-empty pieces; the first has no '-' and the second does not start with '-' |
| LyricsService.Split2Pair | WpfApp1/Services/LyricsService.cs:21-22 | with two pieces, the name is dashes + first piece + at least one dash + second piece, so the title keeps later dashes |
| LyricsService.Split2Single | WpfApp1/Services/LyricsService.cs:21-22 | with fewer than two pieces, the name is all dashes, or a single piece surrounded only by dashes |
| LyricsService.Split2OfPair | WpfApp1/Services/LyricsService.cs:21-26 | "x-y" with a dash-free x and a y not starting with '-' splits into exactly [x, y] |
| LyricsService.SplitNameOfPair | WpfApp1/Services/LyricsService.cs:20-26 | such a name gives artist Trim(x) and title Trim(y) |
| LyricsService.SplitNameNoDash | WpfApp1/Services/LyricsService.cs:20-26 | a name without '-' gives an empty artist and the whole name as title |
| LyricsService.SegmentsFree | WpfApp1/Services/LyricsService.cs:132-137 | every trimmed segment is free of '\n' and '\r' |
| LyricsService.ParsedLinesSpec | WpfApp1/Services/LyricsService.cs:129-141 | one line per non-empty trimmed segment between '\n'/'\r', in order, line i at i × 3 s |
| LyricsService.ParsedLinesOfJoin | WpfApp1/Services/LyricsService.cs:129-141 | parsing trimmed, break-free, non-empty texts joined by '\n' gives back those texts |
| LyricsService.WordLinesSpec | WpfApp1/Services/LyricsService.cs:94-101 | the fallback gives one line per space-separated word of the title, in order, word i at i × 2 s |
| LyricsService.WordLinesOfJoin | WpfApp1/Services/LyricsService.cs:95 | the fallback of words joined by spaces recovers the words |
| LyricsService.FetchWithoutArtist | WpfApp1/Services/LyricsService.cs:28-102 | with a blank artist, no lookup is tried and the result is the word fallback of the title |
| LyricsService.FetchIgnoresGeniusWithoutToken | WpfApp1/Services/LyricsService.cs:29-30 | without a Genius token, the Genius answer has no influence on the result |
| LyricsService.FetchEmptyOvh | WpfApp1/Services/LyricsService.cs:79-82 | an empty lyrics.ovh answer gives an empty list, not the fallback |
| LyricsService.FetchPrefersGenius | WpfApp1/Services/LyricsService.cs:30-55 | when Genius is tried and answers non-blank text, the result is that text parsed into lines |
| LyricsService.ParseLyricsToLines | WpfApp1/Services/LyricsService.cs:129-141 | the loop over segments computes ParsedLines |
| LyricsService.WordFallback | WpfApp1/Services/LyricsService.cs:94-101 | the loop over words computes WordLines |
| LyricsService.SelectLyrics | WpfApp1/Services/LyricsService.cs:28-102 | the guarded Genius → lyrics.ovh → fallback chain computes Select |
| LyricsService.FetchLyricsByFilename | WpfApp1/Services/LyricsService.cs:17-103 | the whole operation computes Fetch (base name, split, select) |
| Player.Digits | WpfApp1/MainWindow.xaml.cs:126 | a number prints as a non-empty string of digits |
| Player.Pad2 | WpfApp1/MainWindow.xaml.cs:126 | a number below 100 prints as exactly two digits |
| Player.ValueOfDigits | WpfApp1/MainWindow.xaml.cs:126 | reading printed digits back gives the number (round trip) |
| Player.ValueOfPad2 | WpfApp1/MainWindow.xaml.cs:126 | reading a two-digit field back gives the number |
| Player.ClockParts | WpfApp1/MainWindow.xaml.cs:125-127 | hours, minutes and seconds recombine to the total whole seconds |
| Player.FieldsOfFormatTime | WpfApp1/MainWindow.xaml.cs:123-128 | the ':'-separated fields of FormatTime are the hour, minute and second fields |
| Player.FormatTimeSpec | WpfApp1/MainWindow.xaml.cs:123-128 | H:MM:SS with padded minutes and seconds when there is an hour, else M:SS with padded seconds, and the fields read back as the total seconds |
| Player.SeekPosition | WpfApp1/MainWindow.xaml.cs:570-572 | the relative seek position is clamped into [0, 1] |
| Player.SeekPositionSpec | WpfApp1/MainWindow.xaml.cs:570-572 | the position equals the unclamped ratio when it is in range, and is monotone in the click coordinate |
| Player.SeekTargetSpec | WpfApp1/MainWindow.xaml.cs:582-584 | the seek target is floor(pos × length), lies in [0, length], and hits both ends |
| Player.AllWordsAppend | WpfApp1/MainWindow.xaml.cs:210-215 | the words of concatenated lines are the words of each part in order |
| Player.AllWordsShape | WpfApp1/MainWindow.xaml.cs:213 | every collected word is non-empty and space-free |
| Player.ChunksSpec | WpfApp1/MainWindow.xaml.cs:216-221 | ⌈n/6⌉ chunks; each is the next up-to-6 words joined by spaces, all exactly 6 words except possibly the last |
| Player.ChunksRoundTrip | WpfApp1/MainWindow.xaml.cs:210-227 | re-splitting the timestamped chunks recovers the word sequence |
| Player.CollectWords | WpfApp1/MainWindow.xaml.cs:210-215 | the word-collecting loop computes AllWords |
| Player.GroupWords | WpfApp1/MainWindow.xaml.cs:216-221 | the chunking loop computes Chunks |
| Player.TimeChunks | WpfApp1/MainWindow.xaml.cs:222-227 | the timestamping loop puts chunk k at k × 3 s |
| Player.LowerAll | WpfApp1/MainWindow.xaml.cs:201 | each file-name word is lower-cased in place |
| Player.FilterAppend | WpfApp1/MainWindow.xaml.cs:232 | the filter distributes over concatenation, so survivors keep their order |
| Player.FilterSubset | WpfApp1/MainWindow.xaml.cs:232 | every surviving line was in the input and passes the test |
| Player.FilterIncreasing | WpfApp1/MainWindow.xaml.cs:232 | filtering strictly increasing timestamps keeps them strictly increasing |
| Player.KeepLineByContainment | WpfApp1/MainWindow.xaml.cs:232 | a line survives iff its lower-cased text does not contain the lower-cased title |
| Player.DisplayedSpec | WpfApp1/MainWindow.xaml.cs:199-232 | nothing is shown when the fetched lines are the file-name fallback; otherwise the shown lines are the chunks minus those containing the title, so none contains it |
| Player.LoadLines | WpfApp1/MainWindow.xaml.cs:199-232 | the load-time lyric pipeline computes Displayed |
| Player.LeadingRun | WpfApp1/MainWindow.xaml.cs:434-439 | the leading run of lines with timestamp ≤ time, and the line after it is later |
| Player.NearestSorted | WpfApp1/MainWindow.xaml.cs:434-440 | on sorted lines, there is no current line iff none has started, else it is the last line started |
| Player.NearestLine | WpfApp1/MainWindow.xaml.cs:434-439 | the scanning loop computes Nearest |
| Player.Render | WpfApp1/MainWindow.xaml.cs:421-428 | one text block per lyric line |
| Player.PlayerWindow.constructor | WpfApp1/MainWindow.xaml.cs:24-29 | stopped, timer off, both scales 1.0, no lyrics |
| Player.PlayerWindow.PlayPauseClick | WpfApp1/MainWindow.xaml.cs:130-148 | toggles playing; the timer runs exactly when now playing; nothing else changes |
| Player.PlayerWindow.EndReached | WpfApp1/MainWindow.xaml.cs:92-100 | playback end stops playing and the timer, nothing else |
| Player.PlayerWindow.BackClick | WpfApp1/MainWindow.xaml.cs:357-399 | Back stops playback and the timer and clears the lyric blocks; scales are kept |
| Player.PlayerWindow.SettingsOpen | WpfApp1/MainWindow.xaml.cs:472-481 | opening settings records the current scale as original and pending |
| Player.PlayerWindow.ScaleSliderChanged | WpfApp1/MainWindow.xaml.cs:507-510 | moving the slider changes only the pending scale |
| Player.PlayerWindow.ApplySettings | WpfApp1/MainWindow.xaml.cs:489-498 | Apply makes the pending scale both current and original |
| Player.PlayerWindow.CancelSettings | WpfApp1/MainWindow.xaml.cs:500-505 | Cancel restores the original scale and resets pending to it |
| Player.PlayerWindow.CloseSettings | WpfApp1/MainWindow.xaml.cs:483-487 | Close restores the original scale only |
| Player.PlayerWindow.LoadFile | WpfApp1/MainWindow.xaml.cs:150-278 | loading shows Displayed lines as tagged blocks; playback and the timer start iff the media opened |
| Player.PlayerWindow.ApplyIntensity | WpfApp1/MainWindow.xaml.cs:431-460 | with no current line the blocks are unchanged; otherwise every block is restyled: bright and bold iff it is tagged with that line, else dim and normal |
| Player.PlayerWindow.ProgressTick | WpfApp1/MainWindow.xaml.cs:102-121 | with a positive length the labels are the formatted position and length and the lyric blocks are restyled around the line nearest the position (unchanged when there is none); without one both read 0:00 and no block changes; playback, scales and lyrics are unchanged and the blocks stay tagged |
| Fft.Log2OfPow2 | WpfApp1/Services/NeuralAligner.cs:396 | the integer log2 of 2^k is k, so the stage count is exact for power-of-two sizes |
| Fft.ReverseBits | WpfApp1/Services/NeuralAligner.cs:428-437 | the shifting loop computes the bit reversal Rev |
| Fft.RevBound | WpfApp1/Services/NeuralAligner.cs:428-437 | reversing `bits` bits gives a value below 2^bits |
| Fft.RevInvolution | WpfApp1/Services/NeuralAligner.cs:428-437 | for x < 2^bits, reversing twice gives back x |
| Fft.BitReversedInvolution | WpfApp1/Services/NeuralAligner.cs:398-405 | the bit-reversal permutation is its own inverse, hence a permutation |
| Fft.BitReversePermute | WpfApp1/Services/NeuralAligner.cs:397-405 | the swap-when-j>i pass leaves a[i] = old[rev(i)] for every i |
| Fft.StageShape | WpfApp1/Services/NeuralAligner.cs:407-410 | at stage s the block size 2^s is even, at least 2, and divides n = 2^m |
| Fft.StageAt | WpfApp1/Services/NeuralAligner.cs:413-423 | each position of a stage result is the butterfly of its block |
| Fft.StagePair | WpfApp1/Services/NeuralAligner.cs:416-421 | the butterfly writes u + w^j·t at k+j and u − w^j·t at k+j+m/2 |
| Fft.ButterflyBlock | WpfApp1/Services/NeuralAligner.cs:413-424 | the inner loop transforms one block and leaves every other element untouched |
| Fft.ButterflyStage | WpfApp1/Services/NeuralAligner.cs:409-424 | the block loop computes one Stage |
| Fft.FFT | WpfApp1/Services/NeuralAligner.cs:393-426 | the in-place FFT leaves the bit-reversed input transformed by all log2 n stages |
| Fft.ButterflyIndicesInRange | WpfApp1/Services/NeuralAligner.cs:413-421 | butterfly indices k+j < k+j+m/2 stay inside [0, n) |
| Fft.StageOfZero | WpfApp1/Services/NeuralAligner.cs:413-424 | a stage maps an all-zero buffer to all zeros |
| Fft.StagesOfZero | WpfApp1/Services/NeuralAligner.cs:407-425 | any number of stages keeps an all-zero buffer all zero |
| Fft.TransformOfZero | WpfApp1/Services/NeuralAligner.cs:393-426 | the FFT of an all-zero buffer is all zeros |
| Features.MonoLength | WpfApp1/Services/NeuralAligner.cs:271-273 | the mono stream has one sample per whole frame |
| Features.MonoFrame | WpfApp1/Services/NeuralAligner.cs:274-279 | mono sample f is the mean of frame f's channel samples |
| Features.FrameSum | WpfApp1/Services/NeuralAligner.cs:276-277 | the channel loop sums one frame |
| Features.MixToMono | WpfApp1/Services/NeuralAligner.cs:271-279 | the frame loop computes Mono |
| Features.SumSq | WpfApp1/Services/NeuralAligner.cs:286 | the sum of squares is non-negative |
| Features.MaxAbs | WpfApp1/Services/NeuralAligner.cs:287 | the peak is non-negative |
| Features.MaxAbsIsMax | WpfApp1/Services/NeuralAligner.cs:287 | the peak bounds abs(sample) for every sample and is attained, or is 0 for an empty window |
| Features.ZeroCrossingsBound | WpfApp1/Services/NeuralAligner.cs:288 | there are at most samplesCount − 1 zero crossings |
| Features.TimeDomain | WpfApp1/Services/NeuralAligner.cs:282-289 | the time-domain loop computes sum of squares, peak and crossings |
| Features.PadLen | WpfApp1/Services/NeuralAligner.cs:294-296 | the FFT size is at least 64 |
| Features.NextPow2FromSpec | WpfApp1/Services/NeuralAligner.cs:294-295 | doubling from a power of two reaches the smallest power of two ≥ n |
| Features.PadLenSpec | WpfApp1/Services/NeuralAligner.cs:294-296 | N is a power of two, ≥ 64 and ≥ samplesCount, and minimal (64, or N/2 < samplesCount) |
| Features.PaddedLength | WpfApp1/Services/NeuralAligner.cs:294-296 | the doubling loop computes PadLen with the same guarantees |
| Features.Padded | WpfApp1/Services/NeuralAligner.cs:297-299 | the padded buffer has length N |
| Features.PadBuffer | WpfApp1/Services/NeuralAligner.cs:297-299 | the copy loop builds the zero-padded complex buffer |
| Features.Spectrum | WpfApp1/Services/NeuralAligner.cs:297-301 | the spectrum has length N |
| Features.MomentBounds | WpfApp1/Services/NeuralAligner.cs:302-309 | 0 ≤ magSum ≤ Σ i·abs(x_i) ≤ (half − 1)·magSum for non-negative magnitudes |
| Features.SpecCentroidBounds | WpfApp1/Services/NeuralAligner.cs:302-310 | the centroid is 0 when magSum ≤ 1e-9, else in [1/half, (half − 1)/half] |
| Features.CentroidSums | WpfApp1/Services/NeuralAligner.cs:302-309 | the bin loop computes magSum and the weighted sum |
| Features.SpectralCentroid | WpfApp1/Services/NeuralAligner.cs:293-310 | pad, FFT and bin loop compute SpecCent |
| Features.WindowFeatures | WpfApp1/Services/NeuralAligner.cs:312 | every feature vector has exactly 4 entries |
| Features.ExtractWindow | WpfApp1/Services/NeuralAligner.cs:271-312 | the per-window body computes WindowFeatures |
| Features.ZeroCrossingRateBound | WpfApp1/Services/NeuralAligner.cs:291 | 0 ≤ zcr < 1 |
| Features.RmsNonNegative | WpfApp1/Services/NeuralAligner.cs:290 | rms ≥ 0 |
| Features.SpecCentBounds | WpfApp1/Services/NeuralAligner.cs:310 | the window's centroid is 0 or in [1/half, (half − 1)/half] with half = N/2 |
| Features.SumSqOfZero | WpfApp1/Services/NeuralAligner.cs:282-289 | a silent window has zero energy, peak and crossings |
| Features.MagSumOfZero | WpfApp1/Services/NeuralAligner.cs:302-309 | an all-zero spectrum has zero magnitude sum |
| Features.SilentSpecCent | WpfApp1/Services/NeuralAligner.cs:293-310 | a silent window has centroid 0 |
| Features.SilentWindow | WpfApp1/Services/NeuralAligner.cs:281-312 | a silent window yields [0, 0, 0, 0] |
| Features.MonoOfZero | WpfApp1/Services/NeuralAligner.cs:272-279 | a silent buffer mixes to silent mono |
| Features.WindowSamples | WpfApp1/Services/NeuralAligner.cs:263 | a window holds at least 256 samples |
| Features.ChunksPartition | WpfApp1/Services/NeuralAligner.cs:267-317 | the read chunks concatenate back to the stream; all are full except a non-empty last one |
| Features.ReadCountIsCeiling | WpfApp1/Services/NeuralAligner.cs:267-317 | the read loop runs ⌈len/chunk⌉ times |
| Features.ChunksReadCount | WpfApp1/Services/NeuralAligner.cs:267-317 | the number of chunks equals the number of reads |
| Features.ChunksCount | WpfApp1/Services/NeuralAligner.cs:267-317 | there are ⌈len/chunk⌉ windows |
| Features.MapRowsAt | WpfApp1/Services/NeuralAligner.cs:267-318 | row i is the row function applied to chunk i |
| Features.FeatureRowsAt | WpfApp1/Services/NeuralAligner.cs:312 | one feature vector per window, vector i from window i |
| Features.StampsAt | WpfApp1/Services/NeuralAligner.cs:313-315 | timestamp i is i·windowMs/1000 |
| Features.TimestampsIncrease | WpfApp1/Services/NeuralAligner.cs:313-315 | timestamps strictly increase |
| Features.ReadWindows | WpfApp1/Services/NeuralAligner.cs:264-318 | the read loop emits one row per chunk in order, with aligned timestamps |
| Features.ExtractFeatures | WpfApp1/Services/NeuralAligner.cs:251-325 | features are the 4-entry rows of successive windows, one timestamp per row |
| Mlp.Sigmoid | WpfApp1/Services/NeuralAligner.cs:183 | the sigmoid lies strictly between 0 and 1 |
| Mlp.Relu | WpfApp1/Services/NeuralAligner.cs:138 | ReLU is non-negative and at least its argument |
| Mlp.HiddenOf | WpfApp1/Services/NeuralAligner.cs:221-227 | the hidden layer has one non-negative activation per unit |
| Mlp.Hidden | WpfApp1/Services/NeuralAligner.cs:132-139 | the training forward pass has one non-negative activation per unit |
| Mlp.HiddenGrad | WpfApp1/Services/NeuralAligner.cs:155-158 | one gradient per hidden unit |
| Mlp.NewW1 | WpfApp1/Services/NeuralAligner.cs:160-163 | the updated W1 stays hidden × input |
| Mlp.NewB1 | WpfApp1/Services/NeuralAligner.cs:164 | the updated b1 stays of length hidden |
| Mlp.Step | WpfApp1/Services/NeuralAligner.cs:131-165 | one SGD step preserves the parameter shapes |
| Mlp.StepParts | WpfApp1/Services/NeuralAligner.cs:131-165 | a step updates W2 and b2 first, then W1 and b1 with a gradient taken from the already-updated W2 |
| Mlp.StepHiddenUnit | WpfApp1/Services/NeuralAligner.cs:154-165 | a hidden unit with zero activation keeps its W1 row and bias |
| Mlp.Epoch | WpfApp1/Services/NeuralAligner.cs:121-166 | an epoch over any sample order preserves the shapes |
| Mlp.Epochs | WpfApp1/Services/NeuralAligner.cs:121-167 | any number of epochs preserves the shapes |
| Mlp.EpochsNext | WpfApp1/Services/NeuralAligner.cs:121-167 | e + 1 epochs are epoch e applied after e epochs |
| Mlp.SquaredDeviation | WpfApp1/Services/NeuralAligner.cs:86-93 | the squared deviation is non-negative |
| Mlp.StdsPositive | WpfApp1/Services/NeuralAligner.cs:94 | every standard deviation is positive, so normalisation never divides by zero |
| Mlp.Binarise | WpfApp1/Services/NeuralAligner.cs:106 | labels become 0 or 1, and 1 exactly when the label is positive |
| Mlp.InitialW1 | WpfApp1/Services/NeuralAligner.cs:109-114 | the initial W1 is hidden × input |
| Mlp.InitialParams | WpfApp1/Services/NeuralAligner.cs:108-118 | the initial parameters have the trained shapes |
| Mlp.TrainResultSpec | WpfApp1/Services/NeuralAligner.cs:69-181 | training refuses exactly an empty corpus or one whose feature lengths differ from the first; otherwise the model has that input size, the given hidden size, shaped weights, and mean/std of input length with every std positive |
| Mlp.Forward | WpfApp1/Services/NeuralAligner.cs:132-139 | the forward loop over the W1 array computes Hidden |
| Mlp.OutputSum | WpfApp1/Services/NeuralAligner.cs:140-141 | the output loop computes b2 + W2·h |
| Mlp.UpdateOutputWeights | WpfApp1/Services/NeuralAligner.cs:148-151 | the W2 loop computes NewW2 in place |
| Mlp.UpdateRow | WpfApp1/Services/NeuralAligner.cs:160-163 | the row loop subtracts lr·grad·x from row i only |
| Mlp.UpdateHidden | WpfApp1/Services/NeuralAligner.cs:154-165 | the hidden loop computes NewW1 and NewB1 in place |
| Mlp.SgdStep | WpfApp1/Services/NeuralAligner.cs:127-165 | the in-place step computes Step |
| Mlp.ColumnMeans | WpfApp1/Services/NeuralAligner.cs:78-85 | the mean loop computes Means |
| Mlp.ColumnStds | WpfApp1/Services/NeuralAligner.cs:86-95 | the deviation loop computes Stds |
| Mlp.NormalizeSamples | WpfApp1/Services/NeuralAligner.cs:98-107 | each sample is normalised and its label binarised |
| Mlp.InitW1 | WpfApp1/Services/NeuralAligner.cs:109-114 | the initialisation loop fills W1 from the draws |
| Mlp.InitWeights | WpfApp1/Services/NeuralAligner.cs:108-118 | the weights are freshly allocated, shaped and equal to InitialParams |
| Mlp.RunEpoch | WpfApp1/Services/NeuralAligner.cs:124-166 | the sample loop computes Epoch in place |
| Mlp.RunEpochAt | WpfApp1/Services/NeuralAligner.cs:121-167 | one pass of the epoch loop advances Epochs by one |
| Mlp.RunEpochs | WpfApp1/Services/NeuralAligner.cs:121-167 | the epoch loop computes Epochs in place |
| Mlp.TrainFromDb | WpfApp1/Services/NeuralAligner.cs:69-181 | the whole training routine computes TrainResult |
| Mlp.Scale | WpfApp1/Services/NeuralAligner.cs:216-217 | a zero or missing std is replaced by 1, so the divisor is never 0 |
| Mlp.Shift | WpfApp1/Services/NeuralAligner.cs:218 | a missing mean is 0 |
| Mlp.StandardizeWithoutStats | WpfApp1/Services/NeuralAligner.cs:206-219 | with no or all-zero statistics, standardisation is the identity |
| Mlp.Score | WpfApp1/Services/NeuralAligner.cs:208-230 | a frame of the wrong length scores 0, any other scores in (0, 1) |
| Mlp.SmoothBounds | WpfApp1/Services/NeuralAligner.cs:234-245 | smoothing keeps values inside any bounds the raw values respect |
| Mlp.SmoothConstant | WpfApp1/Services/NeuralAligner.cs:234-245 | smoothing a constant sequence leaves it unchanged |
| Mlp.PredictSpec | WpfApp1/Services/NeuralAligner.cs:198-247 | one probability per frame, each in [0, 1]; all zeros without a model |
| Mlp.ShortInputUnsmoothed | WpfApp1/Services/NeuralAligner.cs:208-247 | with fewer than 3 frames a wrong-length frame still reads 0 |
| Mlp.StandardizeFrame | WpfApp1/Services/NeuralAligner.cs:213-220 | the standardisation loop computes Standardize |
| Mlp.HiddenLayer | WpfApp1/Services/NeuralAligner.cs:221-227 | the inference hidden loop computes HiddenOf |
| Mlp.ScoreFrame | WpfApp1/Services/NeuralAligner.cs:210-230 | the per-frame body computes Score |
| Mlp.SmoothScores | WpfApp1/Services/NeuralAligner.cs:234-245 | the smoothing loop computes Smooth |
| Mlp.PredictProbabilities | WpfApp1/Services/NeuralAligner.cs:198-247 | the whole routine computes Predict |
| LineAlign.RoundHalfEven | WpfApp1/Services/NeuralAligner.cs:348 | Math.Round is within ½ and breaks ties to even |
| LineAlign.RoundWithin | WpfApp1/Services/NeuralAligner.cs:348 | rounding a value in [0, k] stays in [0, k] |
| LineAlign.CharWeight | WpfApp1/Services/NeuralAligner.cs:339 | a line counts at least 1 and at least its length |
| LineAlign.PrefixChars | WpfApp1/Services/NeuralAligner.cs:339 | k lines weigh at least k characters |
| LineAlign.PrefixCharsMonotone | WpfApp1/Services/NeuralAligner.cs:346 | the cumulative count never decreases |
| LineAlign.Estimate | WpfApp1/Services/NeuralAligner.cs:347-348 | the estimated frame lies in [0, windows − 1] |
| LineAlign.Penalty | WpfApp1/Services/NeuralAligner.cs:359-363 | frames at or after the estimate are not penalised, earlier ones are |
| LineAlign.FirstBest | WpfApp1/Services/NeuralAligner.cs:354-371 | the best frame lies in the searched range |
| LineAlign.FirstBestIsFirstMax | WpfApp1/Services/NeuralAligner.cs:354-371 | the best frame has the maximal penalised score and no earlier frame ties it |
| LineAlign.Choose | WpfApp1/Services/NeuralAligner.cs:344-374 | the estimate and the chosen frame are valid frame indices |
| LineAlign.ChooseSpec | WpfApp1/Services/NeuralAligner.cs:344-374 | estIdx ≥ the previous choice; the choice is within ±4 of it, clamped, maximises the score, and is estIdx when the best score is below 0.05 |
| LineAlign.Choices | WpfApp1/Services/NeuralAligner.cs:340-380 | one choice per line so far, all valid frames |
| LineAlign.ChoicesFollow | WpfApp1/Services/NeuralAligner.cs:349 | each line's estimate is at or after the previous line's choice |
| LineAlign.ChoiceAt | WpfApp1/Services/NeuralAligner.cs:344-379 | choice i is Choose on the cumulative count up to line i and the previous choice |
| LineAlign.Draft | WpfApp1/Services/NeuralAligner.cs:344-380 | one drafted line per lyric line |
| LineAlign.DraftAt | WpfApp1/Services/NeuralAligner.cs:376-378 | draft line i has text lines[i], the chosen frame's timestamp, and IsScream iff score > 0.8 and RMS > 0.2 |
| LineAlign.BumpedPrefixOf | WpfApp1/Services/NeuralAligner.cs:383-387 | the post-pass on a prefix agrees with the post-pass on the whole |
| LineAlign.BumpedAt | WpfApp1/Services/NeuralAligner.cs:383-387 | each timestamp is kept if later than the previous output, else it is previous + 80 ms |
| LineAlign.BumpedSpec | WpfApp1/Services/NeuralAligner.cs:383-387 | after the post-pass timestamps strictly increase and never decrease |
| LineAlign.BumpedIncreasing | WpfApp1/Services/NeuralAligner.cs:383-387 | already increasing timestamps are left alone |
| LineAlign.EnforceMonotonic | WpfApp1/Services/NeuralAligner.cs:382-387 | the in-place pass over the output array computes Monotone |
| LineAlign.AlignedSpec | WpfApp1/Services/NeuralAligner.cs:328-390 | empty input gives empty output; else one line per lyric line, in order, with its text and strictly increasing timestamps |
| LineAlign.SearchWindow | WpfApp1/Services/NeuralAligner.cs:350-371 | the search loop finds the first maximal frame in the clamped ±4 range |
| LineAlign.ChooseWindow | WpfApp1/Services/NeuralAligner.cs:346-374 | estimate, search and fallback compute Choose |
| LineAlign.NextWindow | WpfApp1/Services/NeuralAligner.cs:344-379 | one loop iteration computes choice i |
| LineAlign.DraftLines | WpfApp1/Services/NeuralAligner.cs:338-380 | the line loop builds Draft in a fresh array |
| LineAlign.AlignTextToAudioWithModel | WpfApp1/Services/NeuralAligner.cs:328-390 | the whole routine computes Aligned |
| Visualizer.Pcm16 | WpfApp1/Services/RealTimeAudioService.cs:79-81 | a 16-bit sample decodes into [−1, 1) |
| Visualizer.Pcm16Values | WpfApp1/Services/RealTimeAudioService.cs:80-81 | the value is the little-endian two's-complement short divided by 32768 |
| Visualizer.SampleCount | WpfApp1/Services/RealTimeAudioService.cs:68-69 | the decoded samples fit inside the recorded bytes |
| Visualizer.Decode | WpfApp1/Services/RealTimeAudioService.cs:62-88 | a decoded buffer has whole frames; unsupported formats give None |
| Visualizer.PcmInRange | WpfApp1/Services/RealTimeAudioService.cs:74-88 | 16-bit PCM decodes, and every decoded sample lies in [−1, 1) |
| Visualizer.DecodeSamples | WpfApp1/Services/RealTimeAudioService.cs:62-88 | the decoding loop computes Decode |
| Visualizer.Windows | WpfApp1/Services/RealTimeAudioService.cs:109-166 | every window has fftSize samples |
| Visualizer.WindowsCount | WpfApp1/Services/RealTimeAudioService.cs:109-166 | 0 windows if len < size, else (len − size)/hop + 1 |
| Visualizer.WindowsAt | WpfApp1/Services/RealTimeAudioService.cs:110-113 | window k is the samples from k·hop to k·hop + size |
| Visualizer.RestIsTail | WpfApp1/Services/RealTimeAudioService.cs:169-176 | the carried-over tail starts at the first unused window start and is shorter than fftSize |
| Visualizer.BandRange | WpfApp1/Services/RealTimeAudioService.cs:140-144 | clamped band indices satisfy 0 ≤ idx0 ≤ idx1 ≤ half − 1 |
| Visualizer.SumRangeNonNegative | WpfApp1/Services/RealTimeAudioService.cs:146-147 | a band sum of non-negative magnitudes is non-negative |
| Visualizer.BandLevels | WpfApp1/Services/RealTimeAudioService.cs:133-151 | there are 32 band levels |
| Visualizer.PeakOf | WpfApp1/Services/RealTimeAudioService.cs:154-155 | the peak is at least 1e-9 |
| Visualizer.PeakSpec | WpfApp1/Services/RealTimeAudioService.cs:154-155 | the peak bounds every band and is 1e-9 or one of the bands |
| Visualizer.RatioUnit | WpfApp1/Services/RealTimeAudioService.cs:154-158 | a non-negative band divided by the peak lies in [0, 1] |
| Visualizer.Normalised | WpfApp1/Services/RealTimeAudioService.cs:156-160 | normalisation keeps the band count |
| Visualizer.BandLevelsUnit | WpfApp1/Services/RealTimeAudioService.cs:133-158 | with non-negative magnitudes every band is non-negative and at most the peak |
| Visualizer.Windowed | WpfApp1/Services/RealTimeAudioService.cs:113 | the Hamming-weighted window keeps its length |
| Visualizer.Magnitudes | WpfApp1/Services/RealTimeAudioService.cs:116-117 | there are fftSize/2 magnitudes |
| Visualizer.WindowBands | WpfApp1/Services/RealTimeAudioService.cs:112-162 | each analysed window yields a 32-band vector |
| Visualizer.HammingWindow | WpfApp1/Services/RealTimeAudioService.cs:112-113 | the window loop fills a fresh array with the weighted samples |
| Visualizer.ComputeMagnitudes | WpfApp1/Services/RealTimeAudioService.cs:116-117 | the magnitude loop computes Magnitudes |
| Visualizer.ComputeBands | WpfApp1/Services/RealTimeAudioService.cs:133-151 | the band loop computes BandLevels |
| Visualizer.NormaliseBands | WpfApp1/Services/RealTimeAudioService.cs:153-162 | the in-place loop computes Normalised |
| Visualizer.AnalyseWindow | WpfApp1/Services/RealTimeAudioService.cs:112-162 | the per-window body computes WindowBands |
| Visualizer.AnalyseAll | WpfApp1/Services/RealTimeAudioService.cs:109-167 | the pos loop emits one band vector per window and stops where the tail begins |
| Visualizer.RealTimeAudio.constructor | WpfApp1/Services/RealTimeAudioService.cs:18-21 | fftSize is max(256, requested) and there is no leftover |
| Visualizer.RealTimeAudio.CaptureDataAvailable | WpfApp1/Services/RealTimeAudioService.cs:58-179 | unsupported formats emit nothing and keep the leftover; otherwise the analysed stream is old leftover + new mono, events are its windows' bands, and the new leftover is its unused tail |
| NowPlaying.FirstCover | WpfApp1/Services/MusicInfoService.cs:157-185 | a found cover looks like a cover URL (non-blank, starts with "http" or contains ".jpg"/".png") |
| NowPlaying.FirstCoverSpec | WpfApp1/Services/MusicInfoService.cs:157-185 | no cover iff no element has one; otherwise it comes from the first element that has one |
| NowPlaying.FirstCoverAppend | WpfApp1/Services/MusicInfoService.cs:154-185 | searching images then all elements is searching the first list, then the second |
| NowPlaying.ScanElements | WpfApp1/Services/MusicInfoService.cs:174-185 | the element loop computes FirstCover |
| NowPlaying.TryExtractCoverUrl | WpfApp1/Services/MusicInfoService.cs:148-189 | the cover search computes FirstCover over images and then all elements |
| NowPlaying.LargeArtworkKeeps | WpfApp1/Services/MusicInfoService.cs:575 | a URL without the 100x100 forms is left unchanged by the artwork rewrite |
| NowPlaying.LargeArtworkRewritesJpg | WpfApp1/Services/MusicInfoService.cs:575 | "100x100bb.jpg" between two texts free of both markers becomes "600x600bb.jpg", and the rest of the URL is unchanged |
| NowPlaying.LargeArtworkRewrites75 | WpfApp1/Services/MusicInfoService.cs:575 | "100x100-75" between two texts free of both markers becomes "600x600-75", and the rest of the URL is unchanged |
| NowPlaying.SpotifyNamesSpec | WpfApp1/Services/MusicInfoService.cs:204-214 | with " - ", (artist, title) are the first two dash-free parts, artist = parts[0] iff parts[0] has a space and parts[1] has none; without it, the whole cleaned title is the title |
| NowPlaying.SpotifyInfo | WpfApp1/Services/MusicInfoService.cs:191-229 | a Spotify result never has an album |
| NowPlaying.SpotifyInfoSpec | WpfApp1/Services/MusicInfoService.cs:202-221 | the source is Spotify iff the window title contains "Spotify" but not "Spotify Premium", otherwise the result is empty; a cover is the one found, non-blank |
| NowPlaying.Kept | WpfApp1/Services/MusicInfoService.cs:279-293 | the kept texts are no more than the texts seen |
| NowPlaying.KeptSpec | WpfApp1/Services/MusicInfoService.cs:284-290 | each kept text is a trimmed, non-blank text without the marker and at most 200 characters, taken from a seen text |
| NowPlaying.KeptAppend | WpfApp1/Services/MusicInfoService.cs:279-293 | filtering distributes over concatenation, so order is kept |
| NowPlaying.CollectTexts | WpfApp1/Services/MusicInfoService.cs:279-293 | the collection loop computes Kept |
| NowPlaying.FirstPair | WpfApp1/Services/MusicInfoService.cs:295-316 | a found pair index has a successor |
| NowPlaying.FirstPairSpec | WpfApp1/Services/MusicInfoService.cs:295-316 | the first adjacent pair with both lengths ≥ 2, None iff there is none |
| NowPlaying.FindPair | WpfApp1/Services/MusicInfoService.cs:295-316 | the pair loop computes FirstPair |
| NowPlaying.LongestIndex | WpfApp1/Services/MusicInfoService.cs:318-331 | the chosen index is valid |
| NowPlaying.LongestIndexSpec | WpfApp1/Services/MusicInfoService.cs:318-331 | it is the first text of maximal length |
| NowPlaying.UiTextInfoSpec | WpfApp1/Services/MusicInfoService.cs:295-331 | no texts, no result; the first qualifying pair gives the longer as title and the other as artist; otherwise a longest text is the title with no artist |
| NowPlaying.TitleInfo | WpfApp1/Services/MusicInfoService.cs:336-354 | a title-derived result is attributed to Yandex Music |
| NowPlaying.TitleInfoSpec | WpfApp1/Services/MusicInfoService.cs:336-354 | after removing the site suffixes and trimming, a split on " - " (else the other dash) gives trimmed artist and title; otherwise the cleaned title is the title |
| NowPlaying.DashTitleInfo | WpfApp1/Services/MusicInfoService.cs:439-451 | a browser-tab result is attributed to Yandex Music |
| NowPlaying.BrowserInfo | WpfApp1/Services/MusicInfoService.cs:406-455 | a browser result is empty or attributed to Yandex Music |
| NowPlaying.BrowserInfoSpec | WpfApp1/Services/MusicInfoService.cs:406-455 | there is a result iff some non-blank tab title names Yandex Music or contains one of the dashes |
| NowPlaying.FirstOwned | WpfApp1/Services/MusicInfoService.cs:250-266 | a found window is visible, belongs to the process and has a non-blank trimmed title |
| NowPlaying.FirstOwnedSpec | WpfApp1/Services/MusicInfoService.cs:250-266 | it is the first such window in enumeration order, None iff there is none |
| NowPlaying.FindOwned | WpfApp1/Services/MusicInfoService.cs:250-266 | the EnumWindows callback loop computes FirstOwned |
| NowPlaying.FirstApp | WpfApp1/Services/MusicInfoService.cs:240-268 | a chosen process has a Yandex Music name and owns a titled window |
| NowPlaying.FirstAppSpec | WpfApp1/Services/MusicInfoService.cs:240-268 | it is the first such process in process order, None iff there is none |
| NowPlaying.AppOf | WpfApp1/Services/MusicInfoService.cs:240-268 | the app window is a visible window with a non-blank trimmed title |
| NowPlaying.AppOfSpec | WpfApp1/Services/MusicInfoService.cs:240-268 | there is an app window iff some process with a Yandex Music name owns a visible window with a non-blank trimmed title |
| NowPlaying.FindApp | WpfApp1/Services/MusicInfoService.cs:240-268 | the process loop computes AppOf |
| NowPlaying.FirstMarked | WpfApp1/Services/MusicInfoService.cs:363-381 | a found window is visible, its title is not blank and names Yandex Music |
| NowPlaying.FirstMarkedSpec | WpfApp1/Services/MusicInfoService.cs:363-381 | it is the first such window in enumeration order, None iff there is none |
| NowPlaying.FindMarked | WpfApp1/Services/MusicInfoService.cs:363-381 | the EnumWindows callback loop computes FirstMarked |
| NowPlaying.BrowserTitles | WpfApp1/Services/MusicInfoService.cs:408-416 | there are no more browser titles than processes |
| NowPlaying.BrowserTitlesSpec | WpfApp1/Services/MusicInfoService.cs:408-416 | a title is listed iff some process with a browser name has it as its main-window title |
| NowPlaying.AppInfo | WpfApp1/Services/MusicInfoService.cs:270-353 | the app-window branch: UI texts (pair, then longest) when they give a result, otherwise the window title |
| NowPlaying.GetYandexMusicInfo | WpfApp1/Services/MusicInfoService.cs:231-462 | the app window of the first Yandex Music process, then the first marked window title, then the browser processes' titles, in that priority |
| NowPlaying.FirstPlayer | WpfApp1/Services/MusicInfoService.cs:474-476 | a found player name occurs in the title |
| NowPlaying.FirstPlayerSpec | WpfApp1/Services/MusicInfoService.cs:474-476 | it is the first listed player whose name occurs, None iff none does |
| NowPlaying.FirstCut | WpfApp1/Services/MusicInfoService.cs:478 | the cut position lies within the title |
| NowPlaying.FirstCutSpec | WpfApp1/Services/MusicInfoService.cs:478 | the kept prefix (Split(...)[0]) contains neither " - player" marker, and when it stops short one of them starts there |
| NowPlaying.OtherInfo | WpfApp1/Services/MusicInfoService.cs:464-492 | a result is empty or attributed to a listed player |
| NowPlaying.OtherInfoSpec | WpfApp1/Services/MusicInfoService.cs:473-487 | with a player named in the title, " - " splits the cleaned text into artist and title; otherwise the cleaned text is the title |
| NowPlaying.CurrentMusicInfo | WpfApp1/Services/MusicInfoService.cs:140-146 | a result without a title is the empty info |
| NowPlaying.CurrentMusicInfoSpec | WpfApp1/Services/MusicInfoService.cs:140-146 | the first of Spotify, Yandex and other with a non-empty title, else empty |
| NowPlaying.TrackKeyInjective | WpfApp1/Services/MusicInfoService.cs:85-93 | for titles without '|', equal keys mean equal title and cover |
| NowPlaying.AnnouncesSpec | WpfApp1/Services/MusicInfoService.cs:85-93 | a repeated poll never fires; with a title or cover present, it fires iff title or cover differs from the previous track |
| NowPlaying.Watcher.constructor | WpfApp1/Services/MusicInfoService.cs:71-73 | no last track and no last key |
| NowPlaying.Watcher.CheckMusic | WpfApp1/Services/MusicInfoService.cs:78-115 | fires iff title or cover is present and the key changed; firing stores the key and the title; otherwise both fields are unchanged |
| ForcedAlign.PyLStripSpec | whisper_forced_align.py:38 | lstrip drops exactly the leading run of Python white space |
| ForcedAlign.PyRStripSpec | whisper_forced_align.py:38 | rstrip drops exactly the trailing run of Python white space |
| ForcedAlign.PyStripSpec | whisper_forced_align.py:38 | strip keeps the infix between the two white runs, whose ends are not white space |
| ForcedAlign.PyWords | whisper_forced_align.py:38-41 | text.strip().split() gives non-empty words |
| ForcedAlign.EvenSplit | whisper_forced_align.py:43-47 | n words give n entries |
| ForcedAlign.PointEnds | whisper_forced_align.py:45-46 | the first split point is the start and the last the end |
| ForcedAlign.PointBetween | whisper_forced_align.py:45-46 | with a non-negative duration, split points move forward within the segment |
| ForcedAlign.EvenSplitSpec | whisper_forced_align.py:43-47 | words in order; consecutive intervals abut; first starts at the segment start and last ends at its end; all inside when start ≤ end |
| ForcedAlign.SegmentWordsSpec | whisper_forced_align.py:37-47 | a wordless segment contributes nothing; n words give n entries carrying those words |
| ForcedAlign.AllSegmentWordsAppend | whisper_forced_align.py:37-47 | entries follow segment order: those of a concatenation are each part's in turn |
| ForcedAlign.AllSegmentWordsCount | whisper_forced_align.py:37-47 | the total is the sum of per-segment word counts |
| ForcedAlign.WordListAligned | whisper_forced_align.py:32-34 | with word segments, one entry per segment in order, with 0.0 and '' for missing keys |
| ForcedAlign.BuildWordList | whisper_forced_align.py:31-47 | the script's loops compute WordList |
| ForcedAlign.AppendEvenSplit | whisper_forced_align.py:43-47 | the inner loop appends the segment's evenly split words |

## Left out

- Audio I/O is replaced by given sample sequences and byte buffers. This covers `Mp3FileReader` decoding, WASAPI loopback start/stop, and the `BlockCopy` reinterpretation.
- Persistence is left out: the training database, model JSON save/load and the volume file. `TrainFromDb` takes its samples and returns the model instead of writing it. `PredictProbabilities` takes the model as an optional input.
- The network is left out (Genius, lyrics.ovh, iTunes, MusicBrainz, Cover Art Archive). Fetch results are optional inputs (`Sources`), and the album-cover lookup is represented only by its artwork-URL rewrite. The regex HTML extraction of `LyricsService.cs:105-127` is not part of this model.
- Floating-point numerics are uninterpreted function parameters: sqrt, exp, magnitude, twiddles, Hamming, tanh, log/pow band edges and the float32 decode. No claim is made that the FFT equals the DFT. Arithmetic on `real` is exact, so no rounding is modelled.
- Visualizer.NormaliseBands: the NaN/Infinity guard of `RealTimeAudioService.cs:161` is not modelled, because `real` has no NaN.
- Randomness is replaced by parameters. The `Random(0)` weight draws are the functions `draw1`/`draw2`, and each epoch's shuffle is an arbitrary index sequence `order(e)`. Nothing requires that sequence to be a permutation.
- Fft.FFT and Visualizer.RealTimeAudio.CaptureDataAvailable require a power-of-two size. The source does not enforce this, and for such sizes `(int)Math.Log(n, 2)` is taken as the exact log2.
- Features.ExtractFeatures: the sample stream is given as data, and `ReadWindows` takes the per-window row function as a parameter.
- LineAlign.AlignTextToAudioWithModel requires every feature row to be non-empty (the source reads `features[f][0]` for RMS) and takes the loaded model as an input.
- Mlp.PredictSpec and Mlp.Score require a loaded model to be `Usable`: its weight arrays must match its declared sizes. The source would throw on a malformed file, and throwing is not modelled.
- C# `int` overflow is not modelled (sizes, indices, millisecond counts).
- TimeSpan is whole milliseconds.
- Player.FormatTimeSpec covers non-negative times only.
- File paths split on both '/' and '\\' as on Windows.
- Player.SeekPosition requires a positive track width. The source divides by it unguarded.
- Player.PlayerWindow.LoadFile: whether the media opened is an input. Async delays and animations are left out.
- UI animations, layout, storyboards and the volume popup are left out, and so is the `Dispatcher`/`Task.Delay` sequencing.
- Concurrency and events are left out. Timer callbacks are ordinary method calls, and `OnBandsReady`/`OnMusicChanged` events are returned as values.
- Win32 window enumeration, UI Automation tree walks and process enumeration are replaced by inputs: the process list (id, name, main-window title), the top-level windows in enumeration order (visibility, owning process, title, UI texts, cover), and the element texts and names.
- String literals whose non-ASCII characters were lost in the source text (the Yandex/VK names and the alternative dash) are kept as opaque constants.
- `ToLowerInvariant` is modelled for ASCII letters only.
- NowPlaying.KeptSpec: the case-insensitive marker test is modelled as an exact match.
- NowPlaying.KeptSpec, NowPlaying.FirstPairSpec, NowPlaying.LongestIndexSpec and LineAlign.CharWeight count string length in Unicode scalar values. .NET's `Length` counts UTF-16 code units, so a character above U+FFFF (an emoji, say) counts once here and twice in the source.
- NowPlaying.FirstCover: `StartsWith("http")` is modelled as an ordinal prefix test. The source's call is culture-sensitive, which can differ from an ordinal test, for instance when ignorable characters are present.
- NowPlaying.TrackKeyInjective assumes titles contain no '|', since otherwise two different tracks can share a key.
- The browser branch of the Yandex detector has a missing `else` after the " - " test. The proof of Strings.SplitStrContains shows that this case cannot arise, so the title parser is reused there.
- Other files are not part of this model: `WhisperClient.cs`, `whisper_transcribe.py`, `MediaSessionWatcher.cs`, `LibVLCShim.cs`, `App.xaml.cs` and `MultiplyConverter.cs`.
- A DTW offset, a cross-correlation fallback and a periodic resync appear in no source file, so none is modelled.
