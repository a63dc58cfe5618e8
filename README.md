# Verified model of the flos NEB image creator and band plotter

This project models the line-processing core of two post-processing scripts
of the siesta-project `flos` utilities.

- **`Utils/NEB/image_creator-v-0.4.py`** builds the image chain for a
  nudged-elastic-band (NEB) calculation. It reads two SIESTA `.fdf`
  structure files with `getInfoFromFdf` and assembles the list
  `[initial, copies…, final]` for the NEB library. It then writes one `.xyz`
  block per image, `images_<method><i>.xyz`, plus the animation file
  `images_<method>_Animation.xyz`, which repeats all the blocks in order.
- **`Working/FC-LUA/vibra/Plot_Band-v-0.5.py`** plots a band structure. It:
  - takes the `.bands` file name from the first `SystemLabel` line of `input.fdf`;
  - reads the Fermi energy line, the k-path line and the energy range from
    the first three lines of that file;
  - reads the quoted high-symmetry points;
  - splits the output of `gnubands` into spin-up and spin-down channels and
    reads the band/spin/k-point counts from its `# Nbands, Nspin, Nk =` header;
  - cuts each channel into one slice per band;
  - computes the x-axis ticks, up to and including the third symmetry point.

The `IndexError`, `ValueError`, `UnboundLocalError`, `NameError` and
`ZeroDivisionError` that the scripts' own list indexing, `int()` calls,
unbound variables and division can raise become error values (`FdfError`,
`WriteError`, `NebError`, `BandError`). Among those, the error reported is
the first one the script would hit, in the order it evaluates its
expressions. The exceptions are the `float()` conversions and the library
calls listed under "Left out": they never raise in the model.

## Files

- `wrappers.dfy`: `Option` and `Result`.
- `text.dfy`: the Python string operations the scripts use, over `string`:
  - `str.split()` over Python's whitespace set;
  - `split(c)[0]` and `split(c, 1)[-1]`;
  - substring `in`, ASCII `lower()`, `strip()`, `replace(c, "")`;
  - `int()` of a token (sign, digits, single underscores) and `str()` of an integer;
  - `filter` and `map` over sequences.
- `fdf.dfy`: `getInfoFromFdf`. It is a reading loop that keeps the script's
  local variables (`ScanState`). Each line is first read into a `Line`: its
  five keyword flags and its tokens. `Step` is one iteration of the
  `if`/`elif` chain, and `ScanLines` is the loop as a left fold. After the
  loop, `Finish` checks that the variables are bound and resolves the
  species indices. The method `GetInfoFromFdf` is the loop itself, proved
  equal to `ParseFdf`.
- `images.dfy`:
  - the image list (`BuildImages` against `ImageList`);
  - the per-image writer (`WriteImage` against `ImageText`);
  - the whole writer loop with its animation file (`WriteImages` against `WriteAll`);
  - the script from the two structure files to the written files
    (`RunImageCreator` against `CreateImages`). The NEB interpolation is a
    parameter of this step.
- `bands.dfy`: each loop of the plotter is a method proved equal to a
  specification function (`FindBandsFile`, `ReadHeader`,
  `ReadSymmetryPoints`, `SplitSpins`, `SliceBands`, `TickPrefix`). The
  lemmas describe those functions: what each list holds, which line wins,
  when reading fails. `RunPlotBands` chains the steps in the script's order
  against `PlotBands`. Float conversion and float equality are parameters
  there (`toFloat`, `same`).

### Behaviour of the scripts worth knowing

- **`#` lines in `.fdf` files.** A `#` line is not simply discarded. It still
  reaches the block branches of the `elif` chain. Inside a species or
  coordinate block it has no tokens, so the script raises an `IndexError`
  (`Fdf.CommentLine`).
- **Empty coordinate block.** With no coordinate rows, the script crashes at
  line 108: numpy cannot index column 1 of an empty array. That happens
  before the "UNABLE TO READ" message, so that message is never printed
  (`NoCoordinates`).
- **Species indices.** They address the species table with Python list
  indexing. An index from `1 - n` to `0` wraps around to the end of the table
  instead of being rejected; anything else outside `1..n` raises
  (`Fdf.PyIndex`).
- **The atom count used by the writer.** Every image is written with the
  `NumberOfAtoms` value of the *initial* file, not with the image's own
  number of atoms. An image with fewer atoms raises; an image with more is
  cut short.
- **`gnubands` output.** The plotter ignores every line that *contains* a
  `#`, not only lines that start with one. It recognises the counts header
  by substring.
- **Band slicing.** Each band gets `len(channel) div Nbands` entries of its
  channel — the length of the channel, not the `Nk` count of the header.

## Model

| member | source | states |
|---|---|---|
| Text.Split | Utils/NEB/image_creator-v-0.4.py:76 | every token is non-empty and blank-free; there are no tokens exactly when the text is all whitespace; the tokens themselves are fixed by `Text.SplitWord` and `Text.SplitSpace` |
| Text.SplitWord | Utils/NEB/image_creator-v-0.4.py:76 | a leading run of non-whitespace followed by whitespace or the end is the first token, and the rest splits on its own |
| Text.SplitSpace | Utils/NEB/image_creator-v-0.4.py:76 | leading whitespace does not change the tokens |
| Text.SplitJoin | Utils/NEB/image_creator-v-0.4.py:185-187 | blank-free words joined by one whitespace character split back into the same words |
| Text.BeforeFirst | Utils/NEB/image_creator-v-0.4.py:72 | `split("#")[0]` is a prefix without `#`, ended by the first `#` when there is one |
| Text.BeforeFirstOf | Utils/NEB/image_creator-v-0.4.py:72 | text after the first `#` does not affect the kept part |
| Text.LowerKeepsSpaces | Utils/NEB/image_creator-v-0.4.py:74-76 | lowering leaves a line blank exactly when it was blank |
| Text.AfterFirst | Working/FC-LUA/vibra/Plot_Band-v-0.5.py:31 | `split(" ", 1)[-1]` is what follows the first blank, or the whole line when there is none |
| Text.Strip | Working/FC-LUA/vibra/Plot_Band-v-0.5.py:34 | the stripped name is a block of the value with only whitespace before and after it, and neither starts nor ends with whitespace, so exactly the leading and trailing whitespace is removed |
| Text.RemoveAll | Working/FC-LUA/vibra/Plot_Band-v-0.5.py:73 | `replace("'", "")` leaves no quote, keeps every other character, and changes nothing without a quote |
| Text.RemoveAllPieces | Working/FC-LUA/vibra/Plot_Band-v-0.5.py:73 | removal of a concatenation is the concatenation of the removals, and one character is kept exactly when it is not the quote: the kept characters stay in order, each as often as in the input |
| Text.ContainsLower | Utils/NEB/image_creator-v-0.4.py:74-78 | a text that contains a word, lowered, contains the lowered word |
| Text.ParseInt | Utils/NEB/image_creator-v-0.4.py:82 | `int()` accepts only digits, underscores and a leading sign, with a digit last, and reads every plain run of digits as its decimal value |
| Text.ParseIntRoundTrip | Utils/NEB/image_creator-v-0.4.py:179 | `int()` of `str(x)` is `x` for every integer |
| Text.NatToStringInjective | Utils/NEB/image_creator-v-0.4.py:175 | distinct indices have distinct decimal texts |
| Text.FilterFirst | Working/FC-LUA/vibra/Plot_Band-v-0.5.py:29-32 | the filtered list is empty exactly when no element passes, and otherwise starts with the first element that passes |
| Fdf.ReadIgnoresComment | Utils/NEB/image_creator-v-0.4.py:71-76 | a line is read exactly as its part before the first `#` |
| Fdf.KeywordAnyCase | Utils/NEB/image_creator-v-0.4.py:74-97 | each of the five keywords, written in any mix of cases before the first `#`, sets its flag |
| Fdf.SystemLabelLine | Utils/NEB/image_creator-v-0.4.py:74-79 | a line mentioning `SystemLabel` with no `#` is recognised as the label line |
| Fdf.Classify | Utils/NEB/image_creator-v-0.4.py:78-100 | a line is ignored exactly when it has no keyword and no block is open; a line holding a value keyword or the species marker is never a row; a species row needs an open species block; a coordinate row needs an open coordinate block outside a species block and is not a marker |
| Fdf.StepFlags | Utils/NEB/image_creator-v-0.4.py:87-95 | a line toggles the species flag exactly when it is a species marker, and the coordinate flag exactly when it is a coordinate marker outside a species block |
| Fdf.ValueLineHasTokens | Utils/NEB/image_creator-v-0.4.py:78-85 | a line holding one of the three value keywords always has a last token, so `splitted[-1]` never raises there |
| Fdf.ParseSpeciesRow | Utils/NEB/image_creator-v-0.4.py:90-92 | a species row is read exactly when there are at least three tokens and the second is an integer; the atomic number is `int()` of the second token and the symbol is the third token up to its first `.`; a missing second or third token is an `IndexError` and a non-integer second token a `ValueError`, in Python's order |
| Fdf.ParseCoordRow | Utils/NEB/image_creator-v-0.4.py:97-100 | a coordinate row is read exactly when there are at least four tokens and the fourth is an integer; it keeps the first three tokens and takes its species index from the fourth; otherwise an `IndexError` or `ValueError` |
| Fdf.PyIndex | Utils/NEB/image_creator-v-0.4.py:108 | `chemSpec[k-1]`: entry `k` for `1 <= k <= n`, counted from the end for `1-n <= k <= 0`, an `IndexError` exactly otherwise |
| Fdf.Resolve | Utils/NEB/image_creator-v-0.4.py:106-108 | resolution succeeds exactly when every index resolves; each row keeps its place and coordinates and gets its species' symbol; otherwise the first unresolvable row is reported |
| Fdf.ScanErrorSticks | Utils/NEB/image_creator-v-0.4.py:69-100 | once a line raises, no later line changes the result |
| Fdf.CommentTailIgnored | Utils/NEB/image_creator-v-0.4.py:71-76 | whatever follows a `#` does not affect how the line is read |
| Fdf.CommentLine | Utils/NEB/image_creator-v-0.4.py:72-100 | a line starting with `#` has no keywords or tokens; it changes nothing outside a block and raises inside one |
| Fdf.LastLabelWins | Utils/NEB/image_creator-v-0.4.py:78-79 | the system label is the last token of the last `systemlabel` line, unbound without one |
| Fdf.LastSpeciesCountWins | Utils/NEB/image_creator-v-0.4.py:81-82 | the species count is `int()` of the last token of the last species-count line |
| Fdf.LastAtomCountWins | Utils/NEB/image_creator-v-0.4.py:84-85 | the atom count is `int()` of the last token of the last atom-count line |
| Fdf.BlockFlags | Utils/NEB/image_creator-v-0.4.py:87-95 | each block flag is on exactly when an odd number of its marker lines have been taken |
| Fdf.SpeciesRows | Utils/NEB/image_creator-v-0.4.py:87-92 | the species table holds one parsed row per line taken inside the species block, in file order |
| Fdf.CoordRows | Utils/NEB/image_creator-v-0.4.py:94-100 | the coordinate list holds one parsed row per line taken inside the coordinate block, in file order |
| Fdf.ResolveExample | Utils/NEB/image_creator-v-0.4.py:106-108 | with species C and O, indices 1, 2, 1 give atoms C, O, C with their coordinates |
| Fdf.Finish | Utils/NEB/image_creator-v-0.4.py:102-115 | the read succeeds exactly when label, species count and atom count are bound, there is a coordinate row and every species index resolves; it then returns those values with the resolved atoms; a missing keyword is reported in the order the prints use them |
| Fdf.ParseFdfOk | Utils/NEB/image_creator-v-0.4.py:61-115 | a successful read returns the loop's label, counts and species table, and one atom per coordinate row with that row's coordinates; there is at least one atom |
| Fdf.ResolveSpecies | Utils/NEB/image_creator-v-0.4.py:106-108 | the resolution loop computes `Resolve` |
| Fdf.ParseReadLines | Utils/NEB/image_creator-v-0.4.py:69-115 | the reading loop and the code after it, over read lines, compute `ParseLines` |
| Fdf.GetInfoFromFdf | Utils/NEB/image_creator-v-0.4.py:61-115 | `getInfoFromFdf` on the lines of a file computes `ParseFdf` |
| Images.ImageList | Utils/NEB/image_creator-v-0.4.py:151-156 | `count` copies of the initial image (none when `count` is negative) between the initial and final images |
| Images.BuildImages | Utils/NEB/image_creator-v-0.4.py:151-156 | the append loop builds `ImageList` |
| Images.AtomLineTokens | Utils/NEB/image_creator-v-0.4.py:184-187 | an atom line splits back into its symbol and coordinates |
| Images.ImageLinesShape | Utils/NEB/image_creator-v-0.4.py:179-187 | an image block is the count, which reads back as that count, then `Image_<i>`, then one line per atom up to the count, in order |
| Images.WriteImage | Utils/NEB/image_creator-v-0.4.py:177-187 | the per-image write loop computes `ImageText`, raising when the image has fewer atoms than the count |
| Images.FileNamesDistinct | Utils/NEB/image_creator-v-0.4.py:169-175 | two image files have the same name exactly when they have the same index; no image file is the animation file |
| Images.WriteAllSucceeds | Utils/NEB/image_creator-v-0.4.py:173-187 | writing succeeds exactly when every image has at least the initial file's atom count |
| Images.WriteAllFiles | Utils/NEB/image_creator-v-0.4.py:173-187 | a successful write makes one file per image, in order, named by its index and holding its block |
| Images.WriteAllAnimation | Utils/NEB/image_creator-v-0.4.py:171-191 | the animation file is the concatenation of the image files, in order |
| Images.WriteAllFails | Utils/NEB/image_creator-v-0.4.py:182-184 | a failed write reports the first image with too few atoms |
| Images.WriteAllErrorSticks | Utils/NEB/image_creator-v-0.4.py:173-191 | once an image raises, later images change nothing |
| Images.WriteImages | Utils/NEB/image_creator-v-0.4.py:169-191 | the writer loop computes `WriteAll` |
| Images.RunImageCreator | Utils/NEB/image_creator-v-0.4.py:121-191 | the script reads the initial file, then the final one, builds, interpolates and writes the images, and computes `CreateImages` |
| Bands.BandsFileFromFirstLabel | Working/FC-LUA/vibra/Plot_Band-v-0.5.py:28-34 | a `.bands` name exists exactly when some line mentions `SystemLabel`, and it comes from the first such line |
| Bands.FindBandsFile | Working/FC-LUA/vibra/Plot_Band-v-0.5.py:28-34 | the label loop and name computation give `BandsFileName` |
| Bands.HeaderFromFirstThreeLines | Working/FC-LUA/vibra/Plot_Band-v-0.5.py:44-53 | lines after the third do not change the header |
| Bands.ReadHeader | Working/FC-LUA/vibra/Plot_Band-v-0.5.py:39-53 | the `enumerate` loop computes `HeaderOf` |
| Bands.QuotedLineHasToken | Working/FC-LUA/vibra/Plot_Band-v-0.5.py:67-71 | a line holding a quote always has a token, so the `len` test never skips it |
| Bands.SymmetryPointsSpec | Working/FC-LUA/vibra/Plot_Band-v-0.5.py:63-73 | reading fails exactly when a quoted line has fewer than two tokens; otherwise there is one marker per quoted line, in order, with its first token and its unquoted second token |
| Bands.SymmetryPointsErrorSticks | Working/FC-LUA/vibra/Plot_Band-v-0.5.py:66-73 | once a line raises, later lines change nothing |
| Bands.ReadSymmetryPoints | Working/FC-LUA/vibra/Plot_Band-v-0.5.py:63-73 | the symmetry-point loop computes `SymmetryPoints` |
| Bands.HeaderHasHash | Working/FC-LUA/vibra/Plot_Band-v-0.5.py:96-108 | the counts header always holds `#`, so it is never a data line |
| Bands.ParseCounts | Working/FC-LUA/vibra/Plot_Band-v-0.5.py:108-113 | the header is read exactly when it has tokens 5, 6 and 7 and all three are integers, and the counts are their values; with fewer tokens it is an `IndexError`, otherwise the first non-integer of the three is reported |
| Bands.CountsHeaderTokens | Working/FC-LUA/vibra/Plot_Band-v-0.5.py:108-109 | the header `# Nbands, Nspin, Nk = 10 2 50` splits into its eight tokens |
| Bands.CountsFromTokens | Working/FC-LUA/vibra/Plot_Band-v-0.5.py:110-113 | those tokens give 10 bands, 2 spins and 50 k points |
| Bands.CountsExample | Working/FC-LUA/vibra/Plot_Band-v-0.5.py:108-113 | that header is recognised and gives 10, 2 and 50, 1000 in all |
| Bands.SpinScanSucceeds | Working/FC-LUA/vibra/Plot_Band-v-0.5.py:95-113 | the loop runs to the end exactly when every data line has a third token and every header has three integer counts |
| Bands.DataRouting | Working/FC-LUA/vibra/Plot_Band-v-0.5.py:96-99 | `tkpoint` holds the first token of every data line, in order |
| Bands.UpRouting | Working/FC-LUA/vibra/Plot_Band-v-0.5.py:100-103 | the spin-up lists hold the first and second tokens of exactly the data lines whose third token is `1`, in order |
| Bands.DownRouting | Working/FC-LUA/vibra/Plot_Band-v-0.5.py:104-107 | the spin-down lists hold the first and second tokens of exactly the data lines whose third token is `2`, in order |
| Bands.SpinPairs | Working/FC-LUA/vibra/Plot_Band-v-0.5.py:99-107 | each channel has as many k points as energies, and the channels together hold no more than `tkpoint` |
| Bands.LastHeaderWins | Working/FC-LUA/vibra/Plot_Band-v-0.5.py:108-116 | the counts are those of the last header line, unbound without one |
| Bands.SpinScanErrorSticks | Working/FC-LUA/vibra/Plot_Band-v-0.5.py:95-113 | once a line raises, later lines change nothing |
| Bands.SplitSpins | Working/FC-LUA/vibra/Plot_Band-v-0.5.py:89-116 | the spin-splitting loop computes `SpinScan` |
| Bands.ChunkFits | Working/FC-LUA/vibra/Plot_Band-v-0.5.py:121-124 | every band's slice bounds lie within the channel |
| Bands.Slices | Working/FC-LUA/vibra/Plot_Band-v-0.5.py:121-124 | there is one slice per band |
| Bands.SlicesCover | Working/FC-LUA/vibra/Plot_Band-v-0.5.py:121-124 | all slices have `len div Nbands` entries; together, in order, they are the channel's longest prefix of whole slices; fewer than `Nbands` entries are dropped |
| Bands.FlattenChunks | Working/FC-LUA/vibra/Plot_Band-v-0.5.py:121-124 | the first `m` slices, one after the other, are the first `m` chunks of the channel |
| Bands.SliceBands | Working/FC-LUA/vibra/Plot_Band-v-0.5.py:156-159 | the slicing loop raises on zero bands, gives no band for a negative count, and otherwise gives `Slices` |
| Bands.PrefixUntilSpec | Working/FC-LUA/vibra/Plot_Band-v-0.5.py:141-148 | the ticks are a prefix of the points that stops at the first point equal to the third and holds no earlier such point |
| Bands.TicksAtMostThree | Working/FC-LUA/vibra/Plot_Band-v-0.5.py:132-146 | when the third point equals itself, there are at most three ticks |
| Bands.TickPrefix | Working/FC-LUA/vibra/Plot_Band-v-0.5.py:132-148 | the tick loop with its `break` computes `Ticks`, raising with fewer than three points |
| Bands.RunPlotBands | Working/FC-LUA/vibra/Plot_Band-v-0.5.py:28-159 | the script from the structure file to the band slices and ticks computes `PlotBands`, raising the script's first error |

## Left out

- **File I/O.** Opening, reading and writing files, and `os.mkdir`/`os.chdir`, are not modelled. A file is the sequence of its lines, and a written file is an `OutFile` (name and text). The `wdir` directory prefix of the output paths is dropped. When an image raises halfway, the script has already written a partial file; the model records only the error.
- **Command line, console output and plotting.** `argparse`, every `print`, and every `matplotlib` call (limits, Fermi line, titles, `xticks`, `savefig`) are not modelled. The ticks and the marker names are handed to the plot as they are. This includes the unequal lengths that `plt.xticks` receives.
- **External programs and libraries.** The call to `gnubands` (line 79) is not modelled, including its energy-window flags computed from `float(minE[0])` and `float(maxE[0])`. Its output lines are an input. The NEB interpolation (lines 162-163) is the `interpolate` parameter. Building the ASE `Atoms` objects (lines 141-145) is assumed to give back the symbols and coordinates that were read. ASE's parsing of the concatenated symbol string is not modelled.
- **`interpolate`.** The NEB interpolation is a total function in the model, so no exception the NEB library raises is represented.
- **Floating point.** Coordinates and energies stay as their tokens. `float()` and its `ValueError` on a non-numeric coordinate, energy or symmetry position are not modelled. `Bands.PlotBands` converts symmetry positions with a `toFloat` parameter and compares them with a `same` parameter. This also decides which exception a short coordinate row raises. For a row such as `x 1`, the script raises a `ValueError` at line 98; the model reports `MissingToken`. The `%.8f` formatting of written coordinates is not modelled: an atom line holds the coordinate tokens joined by tabs.
- **`int(len / nb)`.** It is modelled as exact integer division for a positive band count. Float rounding of very large lengths is not modelled.
- **Character sets.** `lower()` is modelled on ASCII letters. The only non-ASCII characters that Python lowers to ASCII are the Kelvin sign, which gives `k`, and `İ`, which gives `i` plus a combining dot. No keyword contains `k`, and the combining dot breaks any match with `i` in the middle of a keyword. So keyword detection is the same. `int()` accepting non-ASCII digits and surrounding whitespace is not modelled: tokens never hold whitespace.
- **numpy.** The in-place overwrite of column 1 of the numpy array `relax_info` (line 108) is modelled as building a new sequence of atoms. The model assumes numpy builds an object array from the ragged rows. Newer numpy versions refuse such rows with a `ValueError`; that is not modelled.
- **Exception type on short symmetry lines.** On a quoted symmetry line with a single token, that token holds the quote, since a quote is not whitespace. `float()` never accepts a quote, so the script raises a `ValueError` at line 72, before it reaches `i_sympoint[1]` at line 73. `ShortSymmetryLine` stands for that `ValueError`, and the model reports it for exactly those lines.
- **Repeated plotting.** The spin-down tick computation (lines 164-177) repeats the spin-up one (lines 132-146) on the same points. `PlotBands` computes it once.
