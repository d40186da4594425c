# Glitchify and track-list splitting in Dafny

This project models the two algorithmic cores of a small collection of Python
scripts and proves properties of the model.

**Channel compositing** (`glitchify.py`, module `Glitchify` in `glitchify.dfy`).
Images are dense (row, column, channel) arrays, here `array3<int>`.
- `CheckImageListDimensions` checks that a batch has one shape with 3 channels.
- `glitchify` builds a new image whose channel `c` is channel `c` of image `c`.
- `glitchify_random` cuts the plane into `B × B` blocks. Blocks at the right and bottom edges are clipped.
  For every channel and every block it copies the block from a randomly drawn channel of a randomly drawn image.

The random number generator is replaced by a caller-supplied sequence of
draws, consumed in the source's order:
- channel outermost, then block column, then block row;
- for each (channel, block), the image index is drawn first, then the channel index.

The output is then a function of the images, the block size and the draws.
That function is `Glitchify.RandomSample`. The methods
are imperative, over arrays, and never write to their inputs: every
`modifies` clause is on the output parameter, and the compositors only pass it
the freshly allocated image.

**Track-file planning** (`split.py`, module `Split` in `split.dfy`, with the
Python string operations it uses in module `Strings` in `strings.dfy`).
- Each line of a track file becomes a timecode split on `:` and a title.
- For each track, one `ffmpeg` command is planned:
  - the `-ss` start is the track's timecode;
  - the `-t` length is the gap to the next track, and the last track has none;
  - the output file name is `NN - <title>.mp3`.
- The model stops before the commands are run.

`Wrappers` (`wrappers.dfy`) holds the `Option` and `Result` types.

Points where the code's behaviour is easy to misread:
- The shape check reads the channel axis, `np.shape(aImages[0])[2]` (glitchify.py:13), and compares every later shape with the first.
- The random draws are consumed block column before block row (glitchify.py:59-60).
- The shape check returns a boolean (glitchify.py:8-16). The compositors fail through an `assert` on it and on the image count, modelled as `Err`.
- A block size of 0 fails with a `ZeroDivisionError` at glitchify.py:56, not through an `assert`; it is `Err(ZeroBlockSize)` here.
- A negative block size makes both block counts at most 0 under Python 2's floor division, so no block is visited and the result is all zeros.
- In `split.py`, a timecode whose next track has a different format is not rejected. The length formula reads the next timecode's fields in the current track's format: a missing field raises `IndexError` (`MissingField` here), and a field `int()` cannot read raises `ValueError` (`NotANumber` here).

## Model

| member | source | states |
|---|---|---|
| `Glitchify.CheckImageListDimensions` | glitchify.py:8-16 | the flag is true iff the first shape has 3 axes, its channel axis is 3, and every later shape equals the first |
| `Glitchify.SameShapeIff` | glitchify.py:12-15 | the validator accepts a batch of images exactly when all images have the first image's height and width and 3 channels (both directions) |
| `Glitchify.CopyBlock` | glitchify.py:61-69 | a block copy changes exactly the samples of that rectangle in the destination channel, each to the source's co-located sample in the source channel; everything else keeps its value |
| `Glitchify.Glitchify` | glitchify.py:18-33 | fails unless there are exactly 3 images that pass the shape check; otherwise returns a fresh image of the first image's shape whose sample `(y, x, c)` is `images[c][y, x, c]` |
| `Glitchify.FloorDivIsFloor` | glitchify.py:56-57 | Python 2's `/` and `%` on integers satisfy `a == b·(a/b) + a%b`, with the remainder in `[0, b)` for positive `b` and in `(b, 0]` for negative `b` |
| `Glitchify.NumBlocksIsCeiling` | glitchify.py:56-57 | for a block size of at least 1, the block count `NumBlocks` is the ceiling of `dim / B`: `(n-1)·B < dim <= n·B` |
| `Glitchify.NumBlocksNonPositive` | glitchify.py:56-57 | for a negative block size, `NumBlocks` is at most 0, so no block is visited |
| `Glitchify.BlockOfSample` | glitchify.py:61-67 | a position lies in clipped block `k` exactly when `k` is the position divided by `B`: the blocks partition each axis, so each sample is in exactly one block |
| `Glitchify.BlockInGrid` | glitchify.py:56-60 | the block of every in-image position is one the loops visit |
| `Glitchify.BlockInImage` | glitchify.py:61-68 | every visited block is a non-empty index range inside the image, so no read or write is out of bounds |
| `Glitchify.DrawIndexInjective` | glitchify.py:58-69 | different (channel, block column, block row) triples have different ranks in the visiting order, so no two blocks share a pair of draws |
| `Glitchify.DrawIndexBound` | glitchify.py:58-60 | the rank of every visited (channel, block) is in `[0, 3·nbx·nby)` |
| `Glitchify.SampleDrawBound` | glitchify.py:58-69 | the draw pair that a sample's block uses lies within the draws consumed |
| `Glitchify.RandomSample` | glitchify.py:58-69 | each output sample is the sample at the same row and column of one of the input images, in one of its 3 channels |
| `Glitchify.FillBlock` | glitchify.py:61-69 | one inner-loop step takes the image index, then the channel index, from the draws, and extends the invariant "visited blocks hold their final value, the others still hold 0" by one block |
| `Glitchify.FilledInitially` | glitchify.py:52 | the zero image satisfies the invariant before any block is visited |
| `Glitchify.FilledNextColumn` | glitchify.py:59-60 | after the last block row of a column, the invariant holds for the start of the next column |
| `Glitchify.FilledNextChannel` | glitchify.py:58-59 | after the last block column of a channel, the invariant holds for the start of the next channel |
| `Glitchify.GlitchifyRandom` | glitchify.py:35-71 | fails with fewer than 2 images, a failed shape check, or block size 0 (division by zero); otherwise returns a fresh image of the input shape; for `B >= 1` it has used exactly `6·nbx·nby` draws and each sample `(y, x, c)` is `images[i][y, x, j]`, where `(i, j)` is the pair drawn for channel `c` and block `(x/B, y/B)`; for `B < 0` it uses no draws and the image is all zeros |
| `Glitchify.SameDrawIffSameBlock` | glitchify.py:58-69 | two samples take their value from the same pair of draws exactly when they are in the same channel and the same block (both directions) |
| `Glitchify.WholePlanePerChannel` | glitchify.py:56-69 | with `B >= max(H, W)` there is one block per axis, and output channel `c` is the whole plane of the single pair drawn for `c` |
| `Glitchify.PixelWise` | glitchify.py:37-39 | with `B = 1` every sample of every channel has its own draw pair, ranked channel, then column, then row |
| `Strings.RemoveAll` | split.py:42 | `replace('\n', '')` leaves no newline, keeps every other character exactly as often as it occurs (multiset), and keeps a newline-free line unchanged |
| `Strings.RemoveAllAppend` | split.py:42 | removal from a concatenation is the concatenation of the removals, so the kept characters stay in order |
| `Strings.RemoveAllChar` | split.py:42 | a one-character string loses its character exactly when it is the one removed |
| `Strings.SplitOnce` | split.py:43 | `split(' ', 1)` gives a space-free head; the tail is present iff the line has a space, and head, space and tail give back the line |
| `Strings.SplitOn` | split.py:44 | `split(':')` gives at least one piece and no piece contains `:` |
| `Strings.JoinSplitOn` | split.py:44 | joining the pieces of a split with the separator gives back the original text |
| `Strings.SplitOnJoin` | split.py:44 | splitting a join of separator-free pieces gives back the pieces |
| `Strings.NatToString` | split.py:94 | the decimal rendering reads back as the number, has one digit iff `n < 10`, and has no leading zero |
| `Strings.IntToString` | split.py:94 | `%d` puts a minus sign in front exactly for negative numbers, the digits read back as the magnitude, and there is no leading zero (`0` is `"0"`) |
| `Strings.Pad2` | split.py:90-93 | `%02d` reads back as the number, is at least two digits, exactly two below 100, and starts with `0` exactly below 10 |
| `Split.ParseLine` | split.py:41-44 | a parsed line has at least one timecode field, no field contains `:`, and the title has no newline |
| `Split.ParseLineRoundTrip` | split.py:41-44 | the fields rejoined with `:` are the text before the first space, and with the title they give back the line without newlines |
| `Split.SplitTextRoundTrip` | split.py:43-44 | for a newline-free line, splitting at the first space and then at `:` loses nothing: rejoining gives back the line |
| `Split.BuildTrackList` | split.py:40-44 | the track list has one entry per line, in order, each the parse of its line, after the in-place split of the last entry |
| `Split.FirstLengthError` | split.py:53-83 | reading the length formula's fields in Python's order (`int(next[k])`, then `int(cur[k])`), the first failing read is an `IndexError` exactly when every field read before the missing one is decimal, and a `ValueError` otherwise; no read fails exactly when the next timecode has all of the current one's fields and all read fields are decimal |
| `Split.TrackLengthIsGap` | split.py:51-83 | the field-by-field length (`3600·Δh + 60·Δm + Δs` or `60·Δm + Δs`) is seconds(next, read in the current format) − seconds(current), and with the same format seconds(next) − seconds(current) |
| `Split.TimecodeIsJoin` | split.py:67-87 | the `-ss` value formatted from 3 or 2 fields is the fields joined with `:` |
| `Split.OutFileName` | split.py:90-93 | the file name starts with digits that read back as the 1-based track number (two of them below 100), followed by ` - `, the title and `.mp3` |
| `Split.RenderLayout` | split.py:94-101 | a command line starts with `ffmpeg -ss <start> -i "<sound file>"`, ends with the codec options and the quoted output file, and has ` -t <seconds>` in between exactly when there is a duration |
| `Split.RenderDurationClause` | split.py:94-128 | the last track's command line is an inner track's command line without ` -t <seconds>`, which sits right after the input file |
| `Split.TrackErrorCases` | split.py:51-92 | a track fails its field-count check iff its timecode has neither 2 nor 3 fields; it is error-free iff it passes that check, has a title, and (unless last) the next timecode has all its fields and all fields read are decimal |
| `Split.PlannedCommandParts` | split.py:48-121 | a planned command starts at the track's timecode joined with `:`, has no duration iff it is the last track's, otherwise lasts until the next timecode read in this track's format, and writes to the file named after its 1-based number |
| `Split.InnerCommand` | split.py:49-102 | one loop iteration fails iff the track has an error, with that error; otherwise it yields the rendered planned command of the track |
| `Split.LastCommand` | split.py:105-129 | the last-track step fails iff the last track has an error, with that error; otherwise it yields its rendered planned command |
| `Split.PlanCommands` | split.py:47-129 | the loop over the inner tracks followed by the last-track step returns exactly the track-by-track plan `Plan(tracks)` |
| `Split.PlanStopsAtError` | split.py:48-102 | once a track fails, no later track changes the outcome: every longer prefix of the plan has the same error |
| `Split.PlanPrefixOk` | split.py:48-102 | the plan of the first `n` tracks succeeds exactly when none of them has an error (both directions) |
| `Split.PlanPrefixCommands` | split.py:48-129 | when none of the first `n` tracks fails, their plan holds `n` commands, in track order, each the rendering of that track's planned command |
| `Split.PlanPrefixError` | split.py:48-129 | a failing plan fails with the error of its first failing track |
| `Split.PlanProperties` | split.py:36-129 | no tracks is an error; otherwise the plan succeeds iff no track fails, a failure is the first failing track's error, and success gives one command per track, in order |
| `Split.SplitCommands` | split.py:36-129 | from the lines of a track file it returns exactly the plan of the parsed track list |
| `Split.PlannedStartIsTimecodeText` | split.py:106-115 | the `-ss` value of a track's command is exactly the timecode text of its line |
| `Split.PlannedDuration` | split.py:53-83 | when the next timecode has the same format, as the source assumes, a command's duration is the gap in seconds to the next track |

## Left out

- `glitchify.py` `main` (lines 107-190) is not modelled: argument parsing, the overwrite prompt, file existence checks, image reading and writing, and the redundant `np.size` check are all command-line work or file I/O.
- `random.randint` is replaced by the `draws` parameter. Uniformity and seeding cannot be stated here. The caller must supply in-range draws, as `randint(0, n-1)` and `randint(0, 2)` would.
- Samples are integers. `np.zeros` makes a float64 output, and that conversion is not modelled.
- The compositors take `array3` images, so an image of another rank cannot reach them. The rank check itself is modelled in `CheckImageListDimensions`, over shape tuples of any length.
- Glitchify.CheckImageListDimensions: requires a non-empty list. Python raises `IndexError` on an empty list, but both compositors reject short lists before calling it.
- `split.py` file reading (lines 37-39) is not modelled: the input is the list of lines. Nor are `os.getcwd`, the `cd` prefix, `subprocess.call` and its `OSError` report (lines 131-142): these execute processes.
- Split.TrackError: `int()` is modelled only for non-empty decimal digit strings, and any other field gives `NotANumber`. Python also accepts a sign or surrounding whitespace here.
- `ValueError` and `IndexError` are modelled as the error values `NotANumber` and `MissingField`, without Python's messages or tracebacks. The same holds for `MissingTitle`, which stands for the `IndexError` of `tracklist[idx][1]` on a line without a space (split.py:92, 120).
- Split.PlannedDuration: states the length as a difference of two timecodes only when both have the same format. With mixed formats the length is still modelled exactly (`Split.TrackLengthIsGap`): the next timecode is read in the current track's format.
