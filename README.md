# go-pbqff in Dafny

A model of the logic inside go-pbqff, a driver that computes quartic force
fields by running many single-point quantum-chemistry jobs, together with
the Python script that builds its test fixtures and the two fake Molpro
executables its tests run against. The model covers what lies under the
cluster plumbing: packed force-constant indices, the Taylor-series row
enumeration and displacement lists, finite-difference stencils and the
point generators of program.go, the template loaders, input writers and
output readers of the Molpro, Gaussian, MOPAC, anpass, intder and spectro
files, the two configuration parsers (the struct of input.go and the
keyword array of config.go), the pure helpers of main.go, and the
bookkeeping state (countdown accumulators, checkpoints, the job queue, the
energy hash).

Files are read as sequences of lines; a Go scanner line carries no "\n",
a line Python iterates over keeps it. Floating-point numbers are Dafny
`real`s or opaque text, and parsing or printing them is a function
parameter. Regular expressions are predicates on lines. A `panic` or an
`os.Exit` becomes the `Err` case of a `Result` (or `None`, or a `false`
success flag).

Each module is one file. Most follow one source file; taylor.go is split
over two modules and program.go over six, and a few modules hold what
several source files share:

| file | module | source |
|---|---|---|
| text.dfy | Text | shared string helpers (Go `strings`, `strconv.Atoi`, Python `str`) |
| geom_block.dfy | GeomBlock | the `geometry={ … }` block rule of scripts/mktest.py and the fake Molpro executables |
| json.dfy | Json | the subset of JSON the fixtures use, as Python's `json.dumps` writes it |
| mktest.dfy | Mktest | scripts/mktest.py |
| index.dfy | PackedIndex | index.go |
| taylor.dfy | Taylor | taylor.go: rows, `NextRow`, checks, `newTaylor` |
| taylor_disps.dfy | TaylorDisps | taylor.go: `CartProd`, `Deduplicate`, `Disps`, `MakeDisps` |
| utils.dfy | Utils | utils.go |
| fake_molpro.dfy | FakeMolpro | qsub/molpro.go |
| molpro_main.dfy | MolproMain | molpro/molpro.go |
| hash_name.dfy | HashName | molpro.go: `HashName` and its counter |
| zmat.dfy | Zmat | the z-matrix rewriting shared by molpro.go, gaussian.go and main.go (`FormatZmat`, `UpdateZmat`) |
| molpro.dfy | MolproFile | molpro.go: `LoadMolpro`, `WriteInput`, `AugmentHead`, `ReadOut` |
| gaussian.dfy | GaussianFile | gaussian.go |
| mopac.dfy | MopacFile | mopac.go |
| anpass.dfy | AnpassFile | anpass.go |
| intder.dfy | Intder | intder.go: the atom-order pattern matching and the header's second line |
| qff.dfy | Qff | qff.go |
| spectro.dfy | SpectroFile | spectro.go |
| deltas.dfy | Deltas | the `d:f` step-size list of input.go's and config.go's `ParseDeltas` |
| input.dfy | InputFile | input.go |
| config.dfy | ConfigFile | config.go |
| main.dfy | MainFile | main.go: the flag bits, `ParseFlags`'s mode switch, `GetNames`, `ParseDeltas`, `totalPoints`, `XYZGeom` |
| findiff.dfy | FinDiff | findiff.go |
| fingrad.dfy | FinGrad | fingrad.go |
| chunks.dfy | Chunks | program.go: `min` and the running totals of the point generators |
| program_points.dfy | Points | program.go: `BuildPoints` |
| program_cart.dfy | CartPoints | program.go: `BuildCartPoints` |
| program_gradpts.dfy | GradPoints | program.go: `BuildGradPoints` |
| program_deriv.dfy | Derivatives | program.go: `Derivative` |
| program_grad.dfy | GradDerivatives | program.go: `GradDerivative` |
| types.dfy | Types | types.go |
| checkpoint.dfy | Checkpoint | checkpoint.go |
| bighash.dfy | BigHash | bighash.go |
| queue.dfy | Queue | queue.go |
| output.dfy | Output | output.go |
| parallel.dfy | Parallel | parallel.go |
| fixture.dfy | Fixture | how scripts/mktest.py and the fake executables fit together |

## Model

| member | source | states |
|---|---|---|
| GeomBlock.InBlockIff | scripts/mktest.py:14-17 | the scanning flag is set after a prefix exactly when some earlier line opened a block and no line since closed it |
| Mktest.Parse | scripts/mktest.py:8-22 | `parse` over a file's lines equals the left fold `ParseResult` of the per-line step |
| Mktest.ParseSpec | scripts/mktest.py:13-22 | `parse` fails exactly when an out-of-block "energy= " line has an unreadable last field; otherwise the geometry is the left-stripped body lines in order and the energy is the last such line's value |
| Mktest.NoOpenerNoGeometry | scripts/mktest.py:8-22 | with no "geometry={" line the geometry text is empty |
| Mktest.NoEnergyLine | scripts/mktest.py:11-21 | with no out-of-block "energy= " line the energy stays the integer 0 |
| Mktest.LastEnergyWins | scripts/mktest.py:20-21 | the energy is that of the last out-of-block "energy= " line |
| Mktest.ScanErrSticky | scripts/mktest.py:21 | once float() raises, later lines change nothing |
| Mktest.Collect | scripts/mktest.py:26-30 | the dict built from the files is `Table` of their (geometry, energy) items, or the first file's error |
| Mktest.TableDistinct | scripts/mktest.py:30 | no key occurs twice in the dict |
| Mktest.TableKeys | scripts/mktest.py:30 | a key is in the dict exactly when some file produced it |
| Mktest.TableLastWins | scripts/mktest.py:30 | each key holds the energy of the last file that produced it |
| Mktest.TableFirstOrder | scripts/mktest.py:28-33 | keys keep the order of their first insertion |
| Mktest.Render | scripts/mktest.py:32-37 | the printed text equals `Output`: "{\n", the entries joined by ",\n", then "\n}\n" |
| Mktest.PrintedJoin | scripts/mktest.py:33-36 | after i entries the printer has written the first i entries joined by ",\n", plus a separator when more follow |
| Mktest.Script | scripts/mktest.py:25-37 | the whole script prints `Output` of the dict, or stops at the first unreadable energy |
| Mktest.EmptyOutputParse | scripts/mktest.py:32-37 | with no files the output "{", blank line, "}" decodes to the empty JSON object |
| Mktest.OutputDecodes | scripts/mktest.py:32-37 | the output decodes as a JSON object with one member per dict entry: the key's string and {"Energy": e, "Gradient": null} |
| Json.QuoteRoundTrip | scripts/mktest.py:30 | decoding a `json.dumps` string gives back the original string and the rest of the text |
| Json.QuoteInjective | scripts/mktest.py:30 | different geometries give different JSON keys |
| Json.Hex4RoundTrip | scripts/mktest.py:30 | a `\uXXXX` escape decodes to the code unit it encodes |
| PackedIndex.Index | index.go:26-52 | sorts the caller's array in place unless nosort, then returns `Positions` of it |
| PackedIndex.SortInts | index.go:27-29 | `sort.Ints`: sorted and a permutation of its input |
| PackedIndex.SortedUnique | index.go:27-29 | two sorted permutations of one multiset are equal, so the sorted order is unique |
| PackedIndex.OrderIndependent | index.go:27-29 | with sorting, the result does not depend on the order of the indices |
| PackedIndex.PositionsDefined | index.go:30-51 | defined exactly for 2, 3 or 4 indices; any other count is the panic |
| PackedIndex.PairPositions | index.go:31-38 | equal indices give one diagonal position, distinct ones the two mirror positions |
| PackedIndex.PairsDisjoint | index.go:31-38 | a position of one pair is a position of another only when the pairs are equal or mirrored |
| PackedIndex.CellInjective | index.go:33-37 | `ncoords*(a-1)+b-1` is a distinct cell of the ncoords-square grid for each pair in range |
| PackedIndex.ClosedForms | index.go:41-48 | the integer divisions are exact: the three terms are the triangular, tetrahedral and pentatope counts |
| PackedIndex.TriClosed | index.go:41 | 2*Tri(j) == (j-1)*j |
| PackedIndex.TetClosed | index.go:42 | 6*Tet(k) == (k-1)k(k+1) |
| PackedIndex.PentClosed | index.go:48 | 24*Pent(l) == (l-1)l(l+1)(l+2) |
| PackedIndex.TripleCounts | index.go:39-43 | three indices give i-1+Tri(j)+Tet(k) |
| PackedIndex.QuadCounts | index.go:44-49 | four indices give i-1+Tri(j)+Tet(k)+Pent(l) |
| PackedIndex.TripleBlock | index.go:39-43 | a sorted triple with largest index k lands in the block [Tet(k), Tet(k+1)) |
| PackedIndex.QuadBlock | index.go:44-49 | a sorted quadruple with largest index l lands in the block [Pent(l), Pent(l+1)) |
| PackedIndex.TripleInjective | index.go:39-43 | distinct sorted triples get distinct positions |
| PackedIndex.QuadInjective | index.go:44-49 | distinct sorted quadruples get distinct positions |
| PackedIndex.IntAbs | molpro.go:564-569 | the absolute value: n itself when it is not negative, -n otherwise |
| PackedIndex.GridIndices | index.go:13-20 | a negative step n becomes abs(n)+ncoords, a positive one is kept, in order |
| PackedIndex.E2dIndex | index.go:12-22 | the loop's output indexes the 2*ncoords grid after sorting |
| PackedIndex.GridIndexInjective | index.go:12-20 | distinct steps within range map to distinct grid indices in 1..2*ncoords |
| PackedIndex.E2dIndexExample1 | index.go:12-22 | (9, [1, -9]) gives [17, 306] |
| PackedIndex.E2dIndexExample2 | index.go:12-22 | (9, [-9, -9]) gives [323] |
| PackedIndex.E2dIndexExample3 | index.go:12-22 | (6, [-1, -1]) gives [78] |
| PackedIndex.IndexExample | index.go:26-33 | Index(9, false, 1, 1) is [0] |
| Taylor.IpowAdd | taylor.go:86-92 | m^(a+b) == m^a * m^b |
| Taylor.SumAppend | taylor.go:111-117 | the sum of a concatenation is the sum of the parts |
| Taylor.Row | taylor.go:99-108 | returns `Digits(index, n, m)` |
| Taylor.DigitsValue | taylor.go:99-108 | for 0 <= index < m^n the row has n digits in [0,m), most significant first, whose base-m value is index |
| Taylor.ValueBound | taylor.go:99-108 | a row of base-m digits has a value in [0, m^len) |
| Taylor.DigitsUnique | taylor.go:99-108 | two digit rows of equal length and value are equal |
| Taylor.NextRow | taylor.go:122-137 | zeroes the last positive entry, adds one to the entry before it, updates the array in place and returns the value of the new row |
| Taylor.NextRowSkips | taylor.go:122-137 | from a row whose digit sum is at least m, the next index is strictly larger and every row skipped also has digit sum at least m |
| Taylor.ModCheckIff | taylor.go:249-263 | false exactly when some check with check[0] >= 1 has an odd sum over row[check[0]-1:check[1]] |
| Taylor.EqCheckIff | taylor.go:269-282 | true exactly when every check has check[0] >= 1 and a sub-range sum of 1 |
| Taylor.KeptCases | taylor.go:296-308 | a row is kept by the checks that are present, each case spelled out |
| Taylor.NewTaylor | taylor.go:286-318 | returns `TaylorRows` over all m^n indices |
| Taylor.Jump | taylor.go:309-311 | the jump lands strictly later and skips only rows with digit sum at least m |
| Taylor.TaylorRowsSkip | taylor.go:309-311 | skipping a range of rows with digit sum at least m does not change the result |
| Taylor.TaylorRowsSound | taylor.go:286-318 | every row returned has digit sum below m and passes the checks |
| Taylor.TaylorRowsComplete | taylor.go:286-318 | every index below m^n whose row has digit sum below m and passes the checks is returned |
| Taylor.TaylorRowsOrdered | taylor.go:286-318 | rows come out in strictly increasing index order |
| TaylorDisps.CartProd | taylor.go:203-219 | returns `Product(pools)` |
| TaylorDisps.ProductCount | taylor.go:203-219 | the product has prod(len(pool)) rows, and an empty pools list gives one empty row |
| TaylorDisps.ProductIndex | taylor.go:203-219 | the product is lexicographic with the last pool varying fastest |
| TaylorDisps.ProductShape | taylor.go:203-219 | every row has one entry per pool |
| TaylorDisps.ProductMembers | taylor.go:203-219 | a row is in the product exactly when it picks one element from each pool in turn |
| TaylorDisps.ToKey | taylor.go:224-233 | builds the dash-joined decimal key |
| TaylorDisps.KeyInjective | taylor.go:224-233 | different rows give different keys |
| TaylorDisps.KeysMember | taylor.go:234-242 | a row's key is among the seen keys exactly when the row was seen |
| TaylorDisps.Deduplicate | taylor.go:223-243 | returns `Firsts(rows)` |
| TaylorDisps.FirstsDistinct | taylor.go:223-243 | no two rows are equal and exactly the input's rows remain |
| TaylorDisps.FirstsOfDistinct | taylor.go:223-243 | on rows without repeats nothing changes, so the first of equal rows is kept in place |
| TaylorDisps.Disps | taylor.go:161-198 | the displacements of every row in order, deduplicated unless dups |
| TaylorDisps.DisplaceRow | taylor.go:163-196 | one row's displacements: the row itself when all zero, else the product over its non-zero digits placed back |
| TaylorDisps.NonZero | taylor.go:165-170 | the positions and values of the non-zero digits, in order |
| TaylorDisps.Pool | taylor.go:177-180 | the values -d, -d+2, …, d |
| TaylorDisps.PlaceRow | taylor.go:184-189 | writes the chosen values into a copy of the row at the non-zero positions |
| TaylorDisps.StepsMembers | taylor.go:177-180 | x is in the pool exactly when -d <= x <= d with x+d even |
| TaylorDisps.StepsCount | taylor.go:177-180 | the pool has d+1 values for d >= 0 |
| TaylorDisps.NonZeroMembers | taylor.go:165-170 | p is recorded exactly when row[p] is non-zero |
| TaylorDisps.PlaceAt | taylor.go:184-189 | the chosen values land at the non-zero positions and every other position is unchanged |
| TaylorDisps.RowDispsMembers | taylor.go:163-196 | a row is a displacement exactly when it has zeros where the digit row does and a value of -d,…,d of the right parity elsewhere |
| TaylorDisps.RowDispsCount | taylor.go:163-196 | the number of displacements is the product of the pool sizes |
| TaylorDisps.AllDispsMembers | taylor.go:161-198 | the displacements are exactly those of some input row |
| TaylorDisps.MakeDisps | taylor.go:139-150 | writes each row as its entries separated by commas, one "\n"-terminated line per row |
| TaylorDisps.FormatRow | taylor.go:141-147 | one row as its entries separated by commas |
| TaylorDisps.MakeDispsRoundTrip | taylor.go:139-150 | reading the written text back by lines and commas gives the rows back |
| Utils.CleanSplit | utils.go:7-16 | returns the non-empty pieces of the split |
| Utils.NonEmptyClean | utils.go:10-14 | no empty piece is kept, a piece is kept exactly when it is non-empty, and the output is no longer than the split |
| Utils.NonEmptyAppend | utils.go:10-14 | the filter keeps relative order |
| Utils.TrailingSeparator | utils.go:7-16 | a trailing separator contributes nothing |
| Utils.CleanSplitExample | utils.go:7-16 | "this is\nan\n\nexample\n" gives ["this is", "an", "example"] |
| GeomBlock.OpenAtIff | qsub/molpro.go:55-62 | the Go scanner's `geom` flag after k lines is set exactly when the block is open before line k in the Python reading, and a line is a body line under one rule exactly when it is under the other |
| FakeMolpro.Init | qsub/molpro.go:24-31 | `init` leaves `geoms` equal to the tables merged in order, each later table overwriting earlier entries |
| FakeMolpro.CopyAll | qsub/molpro.go:27-29 | copying one table in any map order gives the old map overridden by that table |
| FakeMolpro.MergedLookup | qsub/molpro.go:24-31 | a key is in the merged map exactly when some table holds it, and its value comes from the last table holding it |
| FakeMolpro.LaterWins | qsub/molpro.go:25-26 | an entry of a table that no later table holds survives the merge unchanged (grad is listed last so its entries win) |
| FakeMolpro.ScanKey | qsub/molpro.go:47-63 | the scanner loop with its `geom` flag and builder produces exactly the key `Key` of all lines |
| FakeMolpro.KeyStep | qsub/molpro.go:52-63 | one scanned line appends exactly that line's piece and moves the flag as the switch does |
| FakeMolpro.KeySpec | qsub/molpro.go:47-63 | the key is the body lines with exactly four fields, re-joined with single spaces, one per line; openers, closers and other lines add nothing |
| FakeMolpro.PieceIgnoresSpacing | qsub/molpro.go:54-61 | two lines with the same fields and the same markers contribute the same text to the key |
| FakeMolpro.Lookup | qsub/molpro.go:64-67 | the lookup succeeds exactly when the key is stored, with the stored entry, and fails with exit status 5 otherwise |
| FakeMolpro.ExtFrom | qsub/molpro.go:40 | `filepath.Ext` is empty or a suffix of the path that starts with "." |
| FakeMolpro.OutPathInp | qsub/molpro.go:40-41 | an input named base+".inp" has extension ".inp" and writes base+".out" |
| FakeMolpro.NoDotNoExt | qsub/molpro.go:40 | a path whose last element has no "." has no extension, so ".out" is appended to the whole name |
| FakeMolpro.CutMono | qsub/molpro.go:72 | the slice bounds never decrease from one third to the next |
| FakeMolpro.ThirdsPartition | qsub/molpro.go:69-79 | the three printed slices concatenate to the whole gradient and each holds gl/3 or gl/3+1 values |
| FakeMolpro.WriteReport | qsub/molpro.go:68-79 | the printing loops write "dummy output", the energy line and one GRADX/GRADY/GRADZ line per third, as `Report` states |
| FakeMolpro.PrintValues | qsub/molpro.go:75-77 | the inner loop appends every value of the slice, formatted, in order |
| FakeMolpro.Molpro | qsub/molpro.go:33-80 | the run ends as `Run` says: status 3, 4, 5 or 0, and the text written to the output path |
| FakeMolpro.RunStatus | qsub/molpro.go:33-67 | status 3 exactly when the input cannot be opened, 4 exactly when the output cannot be created, 5 exactly when the key is not stored and 0 otherwise, with the stored entry's report written to base+".out" |
| MolproMain.FloatsOf | molpro/molpro.go:35-50 | a decoded gradient array has as many values as the JSON array has elements |
| MolproMain.IntoLookup | molpro/molpro.go:40-41 | decoding into the map keeps old entries: a key is present exactly when it was before or some member names it, and it holds the last such member's value, else the old one |
| MolproMain.IntoFails | molpro/molpro.go:35-50 | one member whose value has the wrong type makes the whole decode fail |
| MolproMain.IntoOk | molpro/molpro.go:35-50 | when every member value decodes, the whole object does |
| MolproMain.LastNamedDistinct | molpro/molpro.go:35-50 | with distinct member names the last member naming a key is its only one |
| MolproMain.CalcOfEntry | molpro/molpro.go:19-22 | an entry with a number for "Energy" and null for "Gradient" decodes to that energy and an empty gradient |
| MolproMain.FoldedName | molpro/molpro.go:19-22 | member names select the Energy and Gradient fields regardless of ASCII case, and other names are ignored |
| MolproMain.RunMain | molpro/molpro.go:33-103 | `main` ends as `MainRun` says: exit 2 on a bad table, a panic without arguments, then the run on the first argument |
| MolproMain.MainStatus | molpro/molpro.go:33-90 | exit 2 exactly when a table fails to decode, a panic exactly when the tables decode and no argument is given, and status 0 exactly when the input opens, the output can be created and the key is among the decoded entries |
| Fixture.BodySame | scripts/mktest.py:14-18 | a line is a geometry body line for the script (which keeps the newline) exactly when it is one for the Go scanner (which drops it) |
| Fixture.LStripNewline | scripts/mktest.py:19 | left-stripping a line that keeps its newline gives "" for a blank line, else the stripped line followed by the newline |
| Fixture.LStripAt | scripts/mktest.py:19 | `lstrip` removes exactly the leading run of white space |
| Fixture.StripEmpty | scripts/mktest.py:19 | `lstrip` gives "" exactly for an all-white-space line |
| Fixture.BodyTextLines | scripts/mktest.py:13-19 | the geometry the script stores is the non-blank body lines, left-stripped, each followed by a newline |
| Fixture.LinesInjective | scripts/mktest.py:19 | newline-terminated joins of newline-free lines are equal only when the line lists are |
| Fixture.LineAgrees | qsub/molpro.go:60-61 | a line the fakes keep is one the script keeps, and a kept line is rebuilt unchanged exactly when it is blank or single-spaced with four fields |
| Fixture.SameLinesIff | qsub/molpro.go:47-63 | the script's line list and the fakes' line list are equal exactly when every body line is blank or single-spaced with four fields |
| Fixture.KeyMatchesGeometry | qsub/molpro.go:47-64 | the fakes rebuild the key the script stored for an output file exactly when every line of its geometry block is blank or already single-spaced with four fields |
| Fixture.FixtureLoads | molpro/molpro.go:34-51 | a fixture printed by the script decodes, every geometry it lists maps to its energy with no gradient, and the map's other entries stay |
| HashName.JobName | molpro.go:398-401 | a job name is "job." followed by the zero-padded counter, at least fourteen characters |
| HashName.JobNumberOfName | molpro.go:401 | the counter can be read back from the name it printed |
| HashName.JobNameInjective | molpro.go:401 | two counter values give the same name exactly when they are equal |
| HashName.JobNameNotE0 | molpro.go:401 | no job name is the "E0" placeholder of the reference energy |
| HashName.JobCounter.constructor | molpro.go:391 | the counter starts at zero |
| HashName.JobCounter.Next | molpro.go:394-402 | returns the name of the current count and then moves the count on by one |
| FinDiff.Build | molpro.go:394-402 | evaluating a table literal gives one proto per row in order, the named rows taking consecutive counter values, and moves the counter on by the number of named rows |
| FinDiff.Make1D | findiff.go:5-12 | the slice of the first-derivative table, named from the counter, which moves on by two |
| FinDiff.Make2D | findiff.go:16-37 | some case of the switch always matches, so the panic is unreachable; the slice is the matching case's table named from the counter |
| FinDiff.Make3D | findiff.go:41-93 | some case of the switch always matches, so the panic is unreachable; the slice is the matching case's table named from the counter |
| FinDiff.Make4D | findiff.go:97-315 | some case of the switch always matches, so the panic is unreachable; the slice is the matching case's table named from the counter |
| FinDiff.Table1Sound | findiff.go:5-12 | two rows with coefficients summing to zero, both named, each one step forwards or backwards along i, index [i] |
| FinDiff.Table2Sound | findiff.go:16-37 | for every i and j a case matches; its coefficients sum to zero, every row steps along the index coordinates only, at most two steps with the parity of two, "E0" exactly on the row without steps; it has 3 rows when i == j and 4 otherwise, all named but the reference row that appears exactly when i == j |
| FinDiff.Table3Sound | findiff.go:41-93 | for every i, j and k a case matches; coefficients sum to zero, rows step along the index only with at most three steps of odd parity, none is "E0"; 4 rows when all are equal, 6 when exactly two are, 8 when all differ |
| FinDiff.Table4Sound | findiff.go:97-315 | for every i, j, k and l a case matches; coefficients sum to zero, rows step along the index only with at most four steps of even parity; 5, 8, 12, 9 or 16 rows for the patterns 4, 3+1, 2+1+1, 2+2 and all distinct, and the reference "E0" row appears exactly for the all-even patterns 4 and 2+2 |
| FinDiff.ProtosShape | findiff.go:20-24 | the returned slice has one proto per row with that row's coefficient and steps, the table's shared index and scale, coefficients summing as the table's do, and the name "E0" exactly where the row has no steps |
| FinDiff.ProtoNames | findiff.go:22-24 | two protos of one slice share a name only when both are "E0"; a later named proto has a larger job number than an earlier one |
| FinGrad.GradMake2D | fingrad.go:5-10 | the slice of the gradient table named from the counter, which moves on by two; Scale is zero |
| FinGrad.GradTableSound | fingrad.go:6-9 | the gradient table is the first-derivative table of Make1D, so its coefficients sum to zero and both rows draw a name |
| FinGrad.GradProtos | fingrad.go:7-8 | exactly two protos: coefficient 1 with steps [i] and coefficient -1 with steps [-i], both indexed [i] with zero scale, under the two consecutive job names, which differ |
| Types.Add | types.go:30-38 | adds plus to the element, lowers its count by one and applies the scale when the count reaches exactly zero outside e2d; panics exactly when the count was already below one; every other element is unchanged |
| Types.AddAllSum | types.go:30-38 | up to as many contributions as the count expects leave their sum on the old value, the count lowered by their number, and the scale applied once, exactly with the last expected contribution and never in e2d |
| Types.AddAllDone | types.go:41 | the expected number of contributions leaves the value Done |
| Types.AddAllTooMany | types.go:33-34 | one contribution more than the count expects panics |
| Types.FloatsFromCountFloats | types.go:45-50 | the values of the CountFloats, same length and order |
| Types.GarbageHeap.constructor | types.go:75-77 | a new heap is empty |
| Types.GarbageHeap.Len | types.go:85-87 | the number of file names on the heap |
| Types.GarbageHeap.Add | types.go:80-82 | the input and then the output file of the basename join the end of the heap, so Len grows by two |
| Types.GarbageHeap.Dump | types.go:90-95 | every file on the heap is removed, in order, and the heap is left empty |
| BigHash.Normalize | bighash.go:44 | the geometry, character for character |
| BigHash.Table.constructor | bighash.go:23 | the table starts empty |
| BigHash.Table.Lookup | bighash.go:32-42 | an absent geometry is entered as not calculated and reported NotPresent with value zero; a present one is reported with its stored status and value and the table is unchanged |
| BigHash.Table.At | bighash.go:46-48 | the stored record exactly when the geometry is in the table, nothing (nil) otherwise |
| BigHash.LookedEntries | bighash.go:32-42 | on a table that never stores NotPresent, a lookup keeps it so, reports NotPresent exactly for an absent geometry, leaves the geometry present and every other entry as it was |
| BigHash.LookupTwice | bighash.go:32-42 | a second lookup of the same geometry changes nothing and reports NotCalculated after a first lookup that inserted it |
| Checkpoint.SnapshotArray | checkpoint.go:16-24 | one entry per entry of the array: a Done entry marked Loaded, any other the zero CountFloat; the array itself is read only |
| Checkpoint.MakeCheckpoint | checkpoint.go:14-31 | four writes, to e2d.json, fc2.json, fc3.json and fc4.json in that order, each holding the snapshot of the matching array at its full length |
| Checkpoint.SnapshotEntry | checkpoint.go:18-23 | a snapshot entry is Done, is Loaded exactly when the entry was Done and then keeps its value, and is otherwise the zero value |
| Queue.Driver.constructor | queue.go:9-24 | a driver starts with the given node list and nothing submitted |
| Queue.Driver.SelectNode | queue.go:9-24 | the node list, refilled from PBSnodes when empty, loses its head exactly when the head's queue matches the configured one or none is configured; the answer is that head's node and queue, or no node and the configured queue; a head without ":" that is taken panics |
| Queue.Driver.Push | queue.go:27-68 | every calc is stamped with dir/main<pf>.pbs, chunk number pf and the job id; the job lists the inputs of the calcs that run, on the selected node and queue; submitted grows by their number; the job id joins ptsJobs and paraJobs and expects ChunkSize results |
| Queue.Driver.StampChunk | queue.go:30-39 | every calc gets the PBS file and chunk number, and the calcs that run are counted and their inputs listed in order |
| Queue.StampJobID | queue.go:63-66 | every calc gets the job id and the PBS file, and nothing else about it changes |
| Queue.SelectTakes | queue.go:17-20 | a head "q:n" on the configured queue, or with none configured, gives node n and queue q and leaves the list |
| Queue.SelectKeeps | queue.go:15-22 | a head on another queue gives no node and the configured queue, and the list is unchanged |
| Queue.SelectRefills | queue.go:12-14 | an empty list is refilled from PBSnodes before the choice |
| Queue.InputsAppend | queue.go:30-39 | the inputs of two runs of calcs are the inputs of each, one after the other |
| Queue.InputsCount | queue.go:33-35 | at most one input per calc, and one per calc exactly when every calc runs |
| Output.Subtract | output.go:12-21 | the elementwise difference, and the dimension-mismatch panic exactly when the lengths differ |
| Output.DiffInverse | output.go:12-21 | adding b back to a minus b gives a, a minus a is zero, and b minus a is the negation of a minus b |
| Output.ParseOutput | output.go:47-86 | the loop returns the coordinates and energy of the line machine, and the coordinates are CoordsOf: the last three fields of every line read inside a geometry block, in file order |
| Output.StepEnergy | output.go:59-83 | a line sets the energy exactly when no skip is pending, it is not a geometry opener, the block is closed and it holds "energy="; the energy is then its last field |
| Output.LastEnergyWins | output.go:80-82 | the energy comes from the last line read for it; later lines leave it alone |
| Output.NoEnergyLine | output.go:53-56 | with no line read for the energy it stays zero |
| Output.AppendParsed | output.go:75-78 | the last fields of an atom line are parsed and appended in order after the coordinates read so far |
| Output.StepCoords | output.go:59-79 | a line adds coordinates exactly when no skip is pending, it is not a geometry opener, the block is open, it holds no "}" and it has four fields; it then adds its last three fields, parsed |
| Output.ScanCoords | output.go:57-84 | the coordinates read from the first n lines are exactly the last three fields of the lines among them that ReadsCoords selects (in-block, four fields, not skipped, not closing), in order |
| Output.CoordsTriples | output.go:72-79 | coordinates come three to an atom line, so their count is a multiple of 3 |
| Output.CommentSkipped | output.go:60-68 | with comment set, the two lines after the opener are passed over whatever they hold, and the block is open after the opener |
| Parallel.CheckLog | parallel.go:13-18 | resubmit exactly when the job name occurs nowhere in the log |
| Parallel.CheckLogMissing | parallel.go:16 | a missing log holds no job name but the empty one |
| Parallel.CheckProg | parallel.go:23-43 | the index panics exactly when the scan of the carriage-return segments does, and otherwise the chunk is stuck exactly when the running count is above zero and below the limit |
| Parallel.ScanOk | parallel.go:29-41 | the scan succeeds exactly when no header segment has fewer than 14 fields and no count segment is shorter than 7 bytes |
| Parallel.ScanValues | parallel.go:33-40 | the limit is the 14th field of the last header segment and the count byte 6 of the last count segment, 0 when there is none |
| Parallel.CountDigit | parallel.go:39 | a digit at byte 6 reads as its value, any other byte as 0 |
| Intder.Table | intder.go:155-159 | row r holds the first three fields of line r, parsed, and zeros where the line is shorter |
| Intder.CompareColumn | intder.go:161-169 | comparing column j of row i with every earlier row raises row i's entry once per earlier row with a greater value and the earlier row's entry once per earlier row with a smaller one |
| Intder.RankRow | intder.go:157-170 | reading one line of at most three fields keeps the ranking invariant: every entry is 1 plus the rows above it read so far |
| Intder.AboveIsBelow | intder.go:164-167 | the raises an entry receives from later rows equal the later rows with a greater value |
| Intder.RankCounts | intder.go:157-170 | with three fields on every line, pattern[r][c] is 1 plus the number of rows whose column-c value is strictly greater |
| Intder.BelowValue | intder.go:164-167 | the count of greater rows depends only on the row's own value |
| Intder.BelowOrder | intder.go:164-167 | a greater value has no more rows above it, and strictly fewer once the lower row is counted |
| Intder.RankedOrder | intder.go:157-170 | equal values share their rank, a greater value gets a strictly smaller rank, and rank 1 is exactly the column maximum |
| Intder.BelowNone | intder.go:164-167 | a column maximum has no rows above it |
| Intder.FirstMatchMeans | intder.go:136-148 | the match is -1 exactly when no real coordinate equals the value, otherwise 3x+y of the first equal one in row-major order |
| Intder.DummyAt | intder.go:130-150 | coordinate f of a dummy is its field f parsed, and its match is the first equal real coordinate |
| Intder.FindMatch | intder.go:136-148 | the labelled loop with `break loop` returns the first match or -1 |
| Intder.ReadDummy | intder.go:130-150 | the loop over a dummy line's fields builds its coordinates and matches |
| Intder.DummiesSnoc | intder.go:150 | one more dummy line appends its dummy |
| Intder.DummyStep | intder.go:128-151 | a line among the last ndummy appends its dummy record |
| Intder.AtomLine | intder.go:153-170 | a real line is ranked, and more than three fields is the index panic |
| Intder.PatternEnd | intder.go:126-171 | after the loop no real line had more than three fields |
| Intder.PatternLine | intder.go:126-171 | one iteration keeps the loop state, or panics on a real line with more than three fields |
| Intder.PatternOf | intder.go:126-173 | panics exactly when a real line has more than three fields; otherwise the real lines are ranked and the last ndummy lines are the dummies |
| Intder.PatternLines | intder.go:126-173 | the loop over the lines either stops at an atom line with more than three fields or ends with every real line ranked and every dummy line read |
| Intder.Pattern | intder.go:120-173 | the same over the non-empty lines of the geometry, with a negative ndummy panicking in make |
| Intder.SwapCols | intder.go:330-335 | every row keeps its length |
| Intder.SwapColsTwice | intder.go:330-335 | swapping the same two columns twice gives the rows back |
| Intder.SwapColsSymmetric | intder.go:330-335 | Swap(i, j) and Swap(j, i) agree |
| Intder.SwapColsRows | intder.go:332 | entry c of row x is the old entry j when c is i, i when c is j, and c otherwise |
| Intder.Swap | intder.go:330-335 | the array is swapped in place, and a row without one of the columns is the index panic |
| Intder.SwapExample | intder.go:330-335 | exchanging columns 0 and 1 of the aluminium oxide pattern gives the expected rows |
| Intder.HitsComplete | intder.go:341-345 | every src index whose row equals the dst row is a hit, and the hits increase |
| Intder.OrderSound | intder.go:339-348 | every entry of the order is a src index whose row equals some dst row |
| Intder.HitsUnique | intder.go:341-345 | a row that occurs once in src has exactly that one hit |
| Intder.OrderUnique | intder.go:339-348 | when each dst row occurs exactly once in src, the order has one entry per dst row, pointing at that row |
| Intder.OrderStep | intder.go:340-346 | one more dst row with a single hit extends the order by it |
| Intder.CheckPattern | intder.go:339-348 | the nested loops return `Order(dst, src)` |
| Intder.AppendHits | intder.go:341-345 | the inner loop appends, in increasing order, the index of every src row equal to the dst row |
| Intder.Applied | intder.go:351-356 | defined exactly when every index is in range; then entry k is lines[ord[k]] |
| Intder.ApplyPattern | intder.go:351-356 | the loop returns `Applied`, and an out-of-range index panics |
| Intder.AppliedNone | intder.go:353 | one index out of range makes the whole call panic |
| Intder.AppliedOrder | intder.go:339-356 | applying the order of dst's rows to src gives dst back when each dst row occurs once in src |
| Intder.Swaps | intder.go:306-321 | the swaps list has one entry per stage: (1, 2) at odd stages and (0, 1) at even ones |
| Intder.MatchPattern | intder.go:305-327 | returns the first of the six arrangements whose order covers dst, with the swaps made so far, or no match; src is left swapped in place |
| Intder.MatchFromMeans | intder.go:306-326 | a match is the order of arrangement t, every arrangement before t falls short, and the swaps are those of the first t stages |
| Intder.MatchFromStage | intder.go:306-326 | a stage whose order covers dst ends the search, otherwise the next stage decides |
| Intder.PassedFrom | intder.go:322-324 | a stage that falls short extends a run of stages that fall short |
| Intder.MatchRows | intder.go:305-327 | the two aluminium oxide patterns match without swaps in the order [2, 0, 1, 3] |
| Intder.MatchColumns | intder.go:305-327 | a geometry with its y and z columns exchanged matches after the one swap (1, 2) |
| Intder.ColumnsSwapped | intder.go:319-320 | the first swap turns that geometry's pattern into the reference |
| Intder.OrderOf | intder.go:339-348 | over distinct src rows the order is exactly the index of each dst row |
| Intder.SwapLines | intder.go:293-297 | one pass keeps the number of strings |
| Intder.SwapLinesNone | intder.go:294-296 | a string that panics makes the pass panic |
| Intder.SwapStrsNone | intder.go:290-298 | a pass that panics makes SwapStr panic |
| Intder.SwapPass | intder.go:293-297 | the inner loop rewrites every string in place as `SwapLines`, and panics where Go indexes out of range |
| Intder.SwapStr | intder.go:289-300 | the strings are rewritten in place by each swap pair in turn, as `SwapStrs` says |
| Intder.SwapLinesFields | intder.go:293-297 | on strings of three fields nothing panics, and each string is its fields with x and y exchanged, written with the format |
| Intder.SwapStrsFields | intder.go:289-300 | with pairs inside the three columns and a format that keeps its words, every string reads back as its fields permuted by the pairs in turn |
| Intder.SpacedFields | intder.go:296 | "%s %s %s" of three words reads back as those words |
| Intder.RotateLeft | intder.go:289-300 | the swaps (0, 1) then (1, 2) rotate three fields left by one |
| Intder.RotatedLines | intder.go:289-300 | with those swaps and "%s %s %s", "a b c" becomes "b c a" on every line |
| Intder.HeadLines | intder.go:386-387 | the head's pieces at newlines without the last one |
| Intder.DirectivesAt | intder.go:389-393 | fields 3, 6, 10, 13 and 14 become 4, 2, 3, 0 and 0, every other field is kept |
| Intder.PadFields | intder.go:395-397 | the "%5s" loop writes every field right-aligned in width 5, one after the other |
| Intder.Intder.SecondLine | intder.go:385-401 | returns the new second line and writes it back into the head; fewer than two lines or fifteen fields is the panic; geometry, tail and pattern are unchanged |
| Intder.SecondLineFields | intder.go:385-401 | the new line reads back as the old fields with the directives set, five characters per field |
| Intder.HeadLinesTrailing | intder.go:386-399 | for a head ending in a newline the lines join back to the head without that newline |
| Intder.HeadLinesDropLast | intder.go:386-387 | for a head without a final newline its last line is dropped |
| Chunks.Min | program.go:137-142 | the smaller of the two arguments, and one of them |
| Chunks.SweepSnoc | program.go:176-186 | visiting one more force constant appends its calcs after those of the constants before and threads the arrays and the job counter on |
| Chunks.ShortSnoc | program.go:187-190 | when no proper prefix filled a chunk and the whole walk did not either, no proper prefix of the walk one constant longer does |
| Points.LastSlash | program.go:48 | the position of the last "/" in the path, or -1 when there is none |
| Points.DirOf | program.go:48 | `path.Dir` is never empty, and for a path with a "/" past its first character it is what comes before the last "/" |
| Points.Basename | program.go:72-73 | the base name starts with dir + "/inp/" + the joined atom names + "." |
| Points.BasenameInjective | program.go:72-73 | two geometries get the same base name only when they are the same geometry |
| Points.CalcOf | program.go:69-95 | a geometry whose cenergies slot was loaded gives a calc that does not run, has no name and no targets, and carries the stored value; any other gives a calc named by its base name with the one target cenergies[g] and coefficient 1; the scale is 1 either way |
| Points.ClaimedAt | program.go:66-70 | after q geometries cenergies is long enough for all of them and slot v holds what it held before, its count set to 1 exactly when v < q and the slot was not loaded |
| Points.CalcsToAt | program.go:89-95 | the calcs of geometries 0 .. q-1 are one per geometry, in order, each as `CalcOf` says |
| Points.ClaimedNext | program.go:66-69 | the slot a geometry claims still holds its value from before the file was read |
| Points.EmitNext | program.go:63-97 | ending a geometry clears the buffer, moves the geometry counter on by one, adds its calc and its claim, and writes its input exactly when writing is on and its slot was not loaded |
| Points.EndedNext | program.go:54-55 | a kept line that is not at a positive multiple of len(atomNames) ends no geometry; one that is closes the geometry before it |
| Points.MidwayStep | program.go:53-101 | a kept line that is not the file's last keeps the loop's state in step with the groups of lines kept so far |
| Points.LastStep | program.go:62-99 | the file's last line, when kept, is written into the buffer first and closes the geometry it belongs to |
| Points.ScannedMidway | program.go:52-102 | before the last line the loop's state matches the groups of lines kept so far |
| Points.Grouped | program.go:52-102 | over a whole file the loop makes one calc per geometry of the file, numbered from 0, claims cenergies slots 0 .. q-1, and writes the inputs of the unloaded geometries with their texts |
| Points.WholeGroups | program.go:52-102 | for a file with at least two atoms, the last line a geometry line and m whole geometries, there is at least one geometry and each is exactly one group of len(atomNames) labelled lines |
| Points.ScannedStops | program.go:54 | the loop panics with the division by zero exactly when there are no atom names and some line has no "#" |
| Points.StaysStopped | program.go:54 | once the division by zero has happened the loop does not resume |
| Points.Close | program.go:63-97 | one geometry's end: its calc, its claim on cenergies and its input, as `Emit` states |
| Points.Take | program.go:53-101 | one kept line: the geometry it ends, if any, and the line added to the buffer with its atom label |
| Points.Group | program.go:52-102 | the loop gives the calcs, the cenergies array and the inputs of `Scanned`, and panics exactly when it does |
| Points.EndClosed | program.go:109-126 | after c calls the end is c*cs + cs capped at len(calcs) for a chunk size that is not negative |
| Points.ChunkShape | program.go:117-134 | call c hands out calcs[c*cs : min(c*cs+cs, len)], which is at most cs long and is a full chunk whenever another call is asked for; it panics exactly when its start is beyond the calcs or cs is negative |
| Points.HandedPrefix | program.go:117-134 | the chunks of the first c calls joined are the calcs up to the next start, so every calc is handed out once and in order |
| Points.LastChunk | program.go:128-133 | the call that asks not to be called again is exactly one whose chunk reaches the last calc, and after it every calc has been handed out |
| Points.PointsGen.constructor | program.go:103-114 | the generator starts at call 0 with the calcs, the chunk size and the directory |
| Points.PointsGen.Next | program.go:117-134 | one call returns `ChunkAt` of the call number (the calcs before `Push`), the pf it is pushed with and `MoreAt`, and moves the call number on by one |
| Points.InpDir | program.go:129 | the directory the chunks are pushed to ends in "inp" |
| Points.BuildPoints | program.go:36-135 | panics exactly when the loop does; otherwise returns a fresh generator over the loop's calcs with the configured chunk size and the inp directory, the cenergies array and the inputs the loop wrote |
| CartPoints.CartBounds | program.go:153-163 | Deriv 2, 3 or 4 gives the loop bounds, with caps kmax and lmax that are not negative; any other level is the "unrecognized derivative level" panic |
| CartPoints.RestRuns | program.go:176-197 | the walk taken one step at a time is the nesting of the i, j, k and l loops |
| CartPoints.IRunHas | program.go:176-197 | from any start, the walk visits exactly the valid force constants that are not lexicographically before the start |
| CartPoints.IRunIncreasing | program.go:176-197 | from any start, the walk is in strictly increasing lexicographic order |
| CartPoints.AllExactly | program.go:165-197 | from the first state the walk visits every valid force constant (1 <= j <= i <= ncoords, 0 <= k <= min(j, kmax), 0 <= l <= min(k, lmax)) exactly once, in increasing order |
| CartPoints.LevelsCapped | program.go:156-160 | at Deriv 3 every constant visited has l = 0, and at Deriv 2 also k = 0 |
| CartPoints.CartGen.constructor | program.go:146-166 | the generator starts at the first constant with nothing visited and pf, count and start at zero |
| CartPoints.CartGen.Next | program.go:169-199 | one call continues the walk where the last stopped and runs Derivative on each constant in turn; it stops at the first constant that brings the chunk to ChunkSize and asks to be called again, or it finishes the walk and says not to; pf, count and start move on |
| CartPoints.CartGen.Walk | program.go:176-197 | the constants visited plus the rest of the walk from the saved start are the rest of the walk from the old start |
| CartPoints.CartGen.WalkInner | program.go:181-193 | the k and l loops of one (i, j): on a full chunk they save the next l to resume from; otherwise lnit is back at 0 |
| CartPoints.CartGen.Visit | program.go:183-186 | one constant's Derivative: its calcs, the arrays and the job counter after it |
| CartPoints.BuildCartPoints | program.go:144-200 | a fresh generator exactly for Deriv 2, 3 or 4, with that level's bounds, the chunk size and the directory joined under the program's directory |
| GradPoints.GradBounds | program.go:213-223 | Deriv 2, 3 or 4 gives the loop bounds, with caps jmax and kmax that are not negative; any other level is the panic |
| GradPoints.RestRuns | program.go:236-251 | the walk taken one step at a time is the nesting of the i, j and k loops |
| GradPoints.IRunHas | program.go:236-251 | from any start, the walk visits exactly the valid constants that are not lexicographically before the start |
| GradPoints.IRunIncreasing | program.go:236-251 | from any start, the walk is in strictly increasing lexicographic order |
| GradPoints.AllExactly | program.go:225-251 | from the first state the walk visits every valid constant (1 <= i <= ncoords, 0 <= j <= min(i, jmax), 0 <= k <= min(j, kmax)) exactly once, in increasing order |
| GradPoints.LevelsCapped | program.go:216-220 | at Deriv 3 every constant visited has k = 0, and at Deriv 2 also j = 0 |
| GradPoints.ValidOk | program.go:236-241 | every constant the walk reaches is one GradDerivative accepts |
| GradPoints.GradGen.constructor | program.go:206-226 | the generator starts at the first constant with nothing visited and pf, count and start at zero |
| GradPoints.GradGen.Next | program.go:229-253 | one call continues the walk where the last stopped and runs GradDerivative on each constant in turn; it stops at the first constant that brings the chunk to ChunkSize, or it finishes the walk and says not to call again |
| GradPoints.GradGen.Walk | program.go:236-251 | the constants visited plus the rest of the walk from the saved start are the rest of the walk from the old start |
| GradPoints.GradGen.WalkInner | program.go:238-248 | the k loop of one (i, j): on a full chunk it saves k+1 to resume from; otherwise it runs past its bound |
| GradPoints.GradGen.Visit | program.go:239-242 | one constant's GradDerivative: its calcs, the arrays and the job counter after it |
| GradPoints.BuildGradPoints | program.go:204-254 | a fresh generator exactly for Deriv 2, 3 or 4, with that level's bounds, the chunk size and the directory joined under the program's directory |
| Derivatives.ClaimSlots | program.go:286-295 | the inner loop grows the array to each slot, sets the count to nprotos unless the slot was loaded, and aims one target at each slot in order |
| Derivatives.ResetAllShape | program.go:286-295 | every slot aimed at exists afterwards and holds the count unless loaded; loaded entries stay as they were; new entries are not loaded; slots not aimed at are unchanged |
| Derivatives.KeptMembers | program.go:323-330 | the removal keeps exactly the targets whose slot is not loaded, in order, and never more than there were |
| Derivatives.RemoveSettled | program.go:323-330 | the removal loop, which deletes a loaded target in place and steps over a kept one, leaves `Live` of the targets |
| Derivatives.Stage | program.go:280-320 | the part of the loop body before the removal: the name and scale, the targets and counts of the order's array, the e2d targets for a two-step second derivative, and the e2d value or promised source for a two-step fourth derivative |
| Derivatives.ProtoCalc | program.go:279-341 | Derivative's loop body for one proto equals `ProtoOut` |
| Derivatives.Finish | program.go:321-340 | the calc is kept exactly when targets remain after the removal, and it does not run when it was already marked or its name holds "E0" |
| Derivatives.Derivative | program.go:257-343 | the switch picks the 2-, 3- or 4-index table by k and l; every proto of it can be placed; the calcs and arrays are those of the loop over its protos; the job counter moves on by the named rows |
| Derivatives.MakeProtos | program.go:265-278 | the protos of the table the switch picks, named from the job counter, which moves on by the named rows |
| Derivatives.EmitAll | program.go:279-341 | Derivative's loop over the protos equals `Emit` |
| Derivatives.DerivativePlaceable | program.go:286-297 | every proto of Derivative's table has slots in the force-constant array and, when it has two steps, in e2d |
| Derivatives.EmitExtends | program.go:279-341 | Derivative only grows the arrays: nothing is dropped, entries loaded from a checkpoint are untouched and new entries are not loaded |
| Derivatives.EmittedAwaiting | program.go:321-340 | the calc is dropped exactly when every target is loaded; a kept calc has only waiting targets, keeps its name and scale, and does not run exactly when it was marked or its name holds "E0" |
| Derivatives.EmitAwaiting | program.go:279-341 | every calc returned has only targets that exist and still wait for a value, there are no more calcs than protos, and each was made from one of the protos |
| Derivatives.EmitCounts | program.go:286-292 | after the loop, every slot of the shared index exists and, unless it came loaded from a checkpoint, waits for exactly one contribution per proto |
| GradDerivatives.Ascending3Sorts | program.go:384 | the case-by-case ascending order of three values is what `sort.Ints` leaves |
| GradDerivatives.Ascending4Sorts | program.go:386 | the ascending order of four values is what `sort.Ints` leaves |
| GradDerivatives.GradIndices | program.go:379-387 | one slot per gradient component 1 .. dimmax, in order |
| GradDerivatives.GradPositions | program.go:380-387 | Index accepts the coordinates of every order and gives at least one position |
| GradDerivatives.BumpAllCounts | program.go:393-400 | after aiming at the slots, every slot exists, loaded entries are untouched, and every other entry has its old count plus the number of times it was aimed at |
| GradDerivatives.GradClaim | program.go:379-401 | the component loop aims one target at each slot of `GradIndices` and counts each slot unless loaded |
| GradDerivatives.GradProtoCalc | program.go:375-422 | GradDerivative's loop body for one proto equals `GradOut` |
| GradDerivatives.GradDerivative | program.go:346-425 | the switch picks the table one order lower and the array by j and k; the calcs and arrays are those of the loop over its protos; the job counter moves on by the named rows |
| GradDerivatives.MakeGradProtos | program.go:355-373 | the protos of the table one order lower, named from the job counter |
| GradDerivatives.GradEmitAll | program.go:374-423 | GradDerivative's loop over the protos equals `GradEmit` |
| GradDerivatives.GradEmitAwaiting | program.go:374-423 | the arrays only grow, every calc returned has only waiting targets, there are no more calcs than protos, and each was made from one of them |
| GradDerivatives.GradEmitArrays | program.go:374-401 | only the order's target array changes, and it has its slots aimed at once per proto |
| GradDerivatives.BumpTimesCounts | program.go:393-400 | after n protos each slot exists and every entry not loaded from a checkpoint has counted n times for each time it is named, on top of what it held |
| SpectroFile.OccursIff | spectro.go:238-242 | a frequency is counted at least once exactly when it is listed |
| SpectroFile.CellsPadded | spectro.go:237-248 | with no frequency listed twice, the RESIN cells are the marks of frequencies 1 to n (fill when listed, 0 otherwise), each right-aligned in five columns |
| SpectroFile.ResinFields | spectro.go:232-250 | for a fill from 0 to 9999 and no repeats, the line is 5n columns and a newline, and its fields read back as the marks |
| SpectroFile.ResinLine | spectro.go:232-250 | the loops over j and over the listed frequencies build `Resin` |
| SpectroFile.ResinCells | spectro.go:236-248 | the loop over j = 1..nfreqs writes one cell per frequency in order: fill once per listing of j, or 0 when j is not listed |
| SpectroFile.KeyRoundTrip | spectro.go:253-262 | a key made from integers reads back, field by field with `strconv.Atoi`, as those integers |
| SpectroFile.MakeKey | spectro.go:253-262 | the loop writes the integers in decimal with one space between them and none after the last |
| SpectroFile.Separated | spectro.go:266-277 | no result exactly for a line with no fields (the index panic); otherwise the left-hand side followed by the right-hand side is the integer value of every field in order, 0 for one that is not an integer |
| SpectroFile.EqnSeparate | spectro.go:266-277 | the loop over the fields gives `Separated` |
| SpectroFile.Fermi1Fields | spectro.go:95-98 | a FERMI1 entry is the line's third and fourth fields in five columns each; when these are short they read back as its left- and right-hand side |
| SpectroFile.Fermi2Fields | spectro.go:100-103 | a FERMI2 entry is the line's second to fourth fields in five columns each, read back as two left-hand terms and a right-hand side |
| SpectroFile.AxisMarks | spectro.go:82-89 | the axis letters A, B and C are written 1 0 0, 0 1 0 and 0 0 1, five columns each |
| SpectroFile.CoriolOf | spectro.go:76-93 | a Coriolis line whose second field is a mode number then an axis letter is written as the mode, the third field and the axis, five columns each |
| SpectroFile.WrittenEmpty | spectro.go:44-72 | a freshly loaded input is written as its header with a count of 0 under each of the CORIOL, FERMI1, FERMI2 and RESIN headers |
| SpectroFile.HeaderLines | spectro.go:155-166 | a "CORIOLIS RESONANCES" line opens the Coriolis table; a "FERMI RESONANCE" line opens FERMI1 when its fourth field is "1" and FERMI2 otherwise, and panics with fewer than four fields |
| SpectroFile.Table | spectro.go:125-167 | a header, three skipped lines, entry lines and the empty line after them add one to the section's count and its parsed text per entry line, and leave no table open |
| SpectroFile.OneTable | spectro.go:107-171 | an output holding one table gives that section the count of its entry lines followed by their parsed text, and zero counts to the others |
| SpectroFile.PolyadCount | spectro.go:207-228 | the RESIN section of a polyad is "1", the number of distinct right-hand modes and distinct left-hand sides, then one RESIN line for each |
| SpectroFile.KeyLine | spectro.go:215-225 | a left-hand side's RESIN line marks its modes, with fill 2 for a single mode (an overtone) and 1 otherwise |
| SpectroFile.SeenSnoc | spectro.go:193-199 | one more FERMI2 equation makes a polyad exactly when its right-hand mode was already seen |
| SpectroFile.NoFermi2NoPoly | spectro.go:184-206 | without FERMI2 equations there is no polyad, however many FERMI1 equations share a right-hand mode |
| SpectroFile.CollectFermi1 | spectro.go:184-192 | the FERMI1 loop collects exactly the right-hand modes and left-hand keys of the equations, or panics when a line does |
| SpectroFile.CollectFermi2 | spectro.go:193-203 | the FERMI2 loop adds its modes and keys to those of FERMI1 and flags a polyad exactly when some right-hand mode was already seen |
| SpectroFile.EqsStops | spectro.go:184-203 | a line that panics ends the whole loop in a panic |
| SpectroFile.Spectro.LoadSpectro | spectro.go:25-41 | null exactly when the file cannot be opened; otherwise the header is every line followed by a newline, and the resonance sections are empty |
| SpectroFile.Spectro.WriteInput | spectro.go:44-72 | the header, then each of the four sections under its header, or a count of 0 when it is empty |
| SpectroFile.Spectro.CheckPolyad | spectro.go:177-229 | panics exactly when a FERMI line has no fields; otherwise leaves RESIN unchanged without a polyad, and with one writes the RESIN lines of every distinct right-hand mode and left-hand side, in some order |
| SpectroFile.Spectro.ReadOutput | spectro.go:107-173 | appends the resonance tables of the output to the sections, puts each count in front, then runs CheckPolyad; a missing file or a malformed line is the panic, and the state after the panic is not modelled (Go stops there) |
| SpectroFile.ReadSections | spectro.go:107-171 | the new sections are `ReadText` of the file's lines, or nothing for the panic of a missing file |
| SpectroFile.ScanLines | spectro.go:125-167 | the scanner loop over the lines is the fold `Scanned` of its per-line step |
| Qff.LastDisp | qff.go:202 | the last "DISP" line before position n, or none when no line before n holds "DISP" |
| Qff.LoadedSplit | qff.go:200-208 | the loop's split after n lines: without a "DISP" line Head is empty and every line is in Tail; otherwise Tail runs from the last "DISP" line on and Head holds the lines from the "DISP" line before it (or the first line) up to the last one, each newline-terminated |
| Qff.OneDisp | qff.go:200-208 | with one "DISP" line, Head is every line before it and Tail that line and every line after it |
| Qff.NoDisp | qff.go:200-208 | without a "DISP" line, Head is empty and every line is in Tail |
| Qff.Intder.LoadIntder | qff.go:188-210 | the loaded Head and Tail are those of the split over the file's lines, and the geometry is empty |
| Qff.NinesPieces | qff.go:358-374 | after n lines the two flags say whether a five-field line with a non-"0" third (fourth) field came before, and the buffer is the pieces of the lines so far |
| Qff.ZeroOnce | qff.go:362-369 | only the first line with a non-"0" third (or fourth) field writes a zero line: any later line finds the flag already set |
| Qff.NoZeroFields | qff.go:358-376 | when no line has a non-"0" third or fourth field, Tail is the copied lines followed by one zero line |
| Qff.Intder.Read9903 | qff.go:346-377 | Tail becomes `Tail9903` of the lines, and Head and the geometry are unchanged |
| Qff.Intder.Line9903 | qff.go:359-373 | one pass of the loop body moves the flags and the buffer as `NineStep` does |
| Qff.NoModeLine | qff.go:326-341 | an output without a MODE line gives no frequencies |
| Qff.StopEnds | qff.go:331-334 | nothing after the first "NORMAL" line that follows the MODE line is read |
| Qff.ModesRead | qff.go:331-339 | before any "NORMAL" line, and with every line read long enough, the frequencies are the second fields of the non-empty lines in order, unsorted |
| Qff.ShortLinePanics | qff.go:335-337 | a non-empty line read with fewer than two fields, before any "NORMAL" line, panics |
| Qff.Intder.ReadOut | qff.go:314-343 | the frequencies of `Freqs` over the file's lines, or the panic of a file that cannot be opened |
| Qff.SelectedIff | qff.go:248-254 | a 1-based position is written exactly when its value is above 1e-10 in magnitude, and the positions come in increasing order |
| Qff.RowsSelected | qff.go:248-254 | the rows written are those of the selected positions, in order |
| Qff.Intder.WriteGeom | qff.go:243-257 | the text is Head, the geometry and a newline, "DISP   1", one row for each selected field but the last, then a zero line; an empty longLine is the slice panic |
| Qff.Spectro.CheckPolyad | qff.go:172-178 | the stub changes nothing |
| Qff.Spectro.ReadOutput | qff.go:103-168 | the resonance tables are read into the sections as in spectro.go, and the RESIN section is never changed; a missing file or a malformed line is the panic, and the state after the panic is not modelled (Go stops there) |
| MolproFile.TemplateHead | molpro.go:52-64 | through the first "geometry=" line, with no optimisation line before it, every line goes to Head, newline-terminated |
| MolproFile.TemplateTail | molpro.go:54-59 | the lines after the head up to the optimisation line become Tail, and that line becomes Opt |
| MolproFile.TemplateExtra | molpro.go:60-66 | plain lines to the end become Extra |
| MolproFile.LoadLayout | molpro.go:40-68 | on the usual template Head is the lines through the "geometry=" line, Tail the lines after it up to the optimisation line, Opt that line and Extra the rest, each newline-terminated |
| MolproFile.LoadNoOpt | molpro.go:40-68 | without an optimisation line Tail and Opt stay empty and Extra is everything after the "geometry=" line |
| MolproFile.Molpro.LoadMolpro | molpro.go:40-68 | Head, Tail, Opt and Extra are those of the loop over the template's lines, and the geometry is empty |
| MolproFile.WriteLayout | molpro.go:71-84 | writing a loaded template gives the template back with the geometry after the "geometry=" line; for frequencies the optimisation line is replaced by "{frequencies}", and for neither it is dropped |
| MolproFile.Molpro.WriteInput | molpro.go:71-84 | Head, the geometry and a newline, Tail, then Opt, "{frequencies}" or nothing by procedure, then Extra |
| MolproFile.Molpro.FormatZmat | molpro.go:87-100 | the geometry becomes the input with a lone "}" line before its first line holding "=", or "" with the "improper z-matrix" error exactly when no line holds "="; nothing else changes |
| MolproFile.Molpro.UpdateZmat | molpro.go:103-114 | the geometry becomes its lines through the first "}" line (or all of them), a newline and the new parameters |
| MolproFile.AugmentLines | molpro.go:303-317 | where it acts, AugmentHead puts the lines "geomtyp=xyz" and "bohr" in front of the first "geometry" line whose previous line has no "bohr" |
| MolproFile.AugmentTwice | molpro.go:303-317 | with one line mentioning "geometry", a second AugmentHead changes nothing |
| MolproFile.Molpro.AugmentHead | molpro.go:303-317 | Head becomes `Augmented` of it; a first line mentioning "geometry" is the panic of lines[-1], which leaves Head as it was |
| MolproFile.ProcessGrad | molpro.go:145-150 | the fields after the third and before the last, one per field beyond four, and the slice panic exactly for a line with fewer than five fields |
| MolproFile.Interleave | molpro.go:192-205 | three values per atom, x, y and z in turn |
| MolproFile.EnergyFieldsLast | molpro.go:160-175 | the field loop leaves the value after the last "=" field that has a successor, or what it started with when there is none |
| MolproFile.GoingIff | molpro.go:152-190 | the line loop runs to the end exactly when no line halts it |
| MolproFile.FirstHalt | molpro.go:152-156 | the first halting line decides: an error line gives ErrFileContainsError with no gradient, any other halt is a panic |
| MolproFile.BrokenIff | molpro.go:152-190 | without a halting line the energy stays brokenFloat exactly when no line sets it |
| MolproFile.LastEnergyWins | molpro.go:157-175 | without a halting line the energy is that of the last line that sets it |
| MolproFile.StepStatus | molpro.go:187-189 | a line that neither halts nor sets the energy changes the status only when it holds the termination text and no energy was found |
| MolproFile.NoEnergyStatus | molpro.go:127-189 | without a halting line or an energy line, the status is ErrFinishedButNoEnergy when some line holds the termination text, else ErrEnergyNotFound |
| MolproFile.Molpro.ReadOut | molpro.go:120-208 | `Classify` of the output: ErrFileNotFound for a missing file, ErrFileContainsError or ErrBlankOutput for a file of one line, ErrBlankOutput for none, otherwise the loop's result |
| MolproFile.Molpro.ReadLine | molpro.go:152-190 | one pass of the loop over a line gives `Step` |
| MolproFile.Molpro.ReadBody | molpro.go:157-186 | the if-chain on a non-error line: the energy, the time or a gradient row |
| MolproFile.Molpro.AssignEnergy | molpro.go:161-175 | the loop over an energy line's fields gives `EnergyFields` |
| MolproFile.Molpro.Gradient | molpro.go:192-205 | the gradient loop gives `Interleave` |
| Zmat.SplitJoin | molpro.go:98 | joining newline-free lines with "\n" and splitting again gives the lines back |
| Zmat.FirstWithIs | molpro.go:91-92 | the first piece holding the text is at i when no piece before i holds it and piece i does |
| Zmat.FormatZmat | molpro.go:87-100 | the loop puts "}" in as a line of its own before the first line holding "=", and fails with "improper z-matrix" and an empty geometry exactly when no line holds "=" |
| Zmat.BracedLines | molpro.go:87-100 | the braced text split into lines is the geometry's lines with "}" inserted at the first line holding "=": the lines before it hold no "=" |
| Zmat.InsertRemove | molpro.go:93 | dropping the inserted element gives the lines back |
| Zmat.UpdateZmat | main.go:343-353 | the old lines through the first "}" line (or all of them), a newline, then the new parameters |
| Zmat.KeptInsert | molpro.go:106-111 | cutting after the first "}" of lines with "}" put in at i, when no line before i holds "}", keeps exactly the lines before i and "}" |
| Zmat.UpdateTwice | main.go:343-353 | updating twice is updating once with the second parameters, when the old text has a "}" line |
| Zmat.FormatThenUpdate | molpro.go:87-114 | after FormatZmat, UpdateZmat keeps the atom lines and the brace and replaces the parameters, provided no atom line holds "}" |
| GaussianFile.TemplateRoute | gaussian.go:67-76 | through the first "#" line Head is the lines before it and Opt is that line with its procedure removed |
| GaussianFile.TemplateBody | gaussian.go:77-81 | through the charge-and-spin line Body is the lines after the route line up to and with it, and the geometry begins |
| GaussianFile.TemplateGeometry | gaussian.go:82-85 | the geometry lines up to the first empty line are skipped and that line ends the geometry |
| GaussianFile.TemplateExtra | gaussian.go:86-90 | plain lines to the end become Tail |
| GaussianFile.LoadLayout | gaussian.go:52-92 | on the usual template Head is the lines before the route line, Opt the route line without its procedure, Body the lines after it through the charge-and-spin line, and Tail the lines after the empty line ending the geometry |
| GaussianFile.Gaussian.LoadGaussian | gaussian.go:52-92 | Head, Opt, Body and Tail are those of the loop over the template's lines; the geometry and the directory are empty |
| GaussianFile.WriteLayout | gaussian.go:94-104 | writing a loaded template without a procedure gives the template back with the route line trimmed and stripped of its procedure, and the geometry in place of the skipped lines |
| GaussianFile.Gaussian.MakeInput | gaussian.go:94-104 | Head, the trimmed route line and a space, "opt \n", "freq" or nothing by procedure, Body, the trimmed geometry, an empty line, Tail |
| GaussianFile.Gaussian.SetDir | gaussian.go:39-41 | the directory becomes d and nothing else changes |
| GaussianFile.Gaussian.GetDir | gaussian.go:43-45 | the directory last set |
| GaussianFile.Gaussian.FormatZmat | gaussian.go:118-131 | the geometry becomes the input with "}" put in before its first line holding "=", or "" with the "improper z-matrix" error exactly when no line holds "=" |
| GaussianFile.Gaussian.FormatCart | gaussian.go:135-138 | the geometry becomes the input followed by "\n}\n", and it never fails |
| GaussianFile.Gaussian.UpdateZmat | gaussian.go:141-152 | the geometry becomes its lines through the first "}" line, a newline and the new parameters |
| GaussianFile.GoingIff | gaussian.go:179-225 | the line loop runs to the end exactly when no line stops it |
| GaussianFile.FirstHalt | gaussian.go:181-189 | the first line that stops the loop decides: the requested panic, or ErrFileContainsError without a gradient |
| GaussianFile.FirstLine | gaussian.go:183-186 | "PANIC" in any case on the first line is the requested panic; otherwise "ERROR" there gives ErrFileContainsError |
| GaussianFile.BlankIff | gaussian.go:226-228 | ErrBlankOutput is the answer exactly for an output without lines |
| GaussianFile.NeverBlank | gaussian.go:179-225 | the loop itself never gives ErrBlankOutput |
| GaussianFile.LastEnergyWins | gaussian.go:192-211 | without a line that stops the loop, the energy is that of the last line that sets it |
| GaussianFile.Gaussian.ReadOut | gaussian.go:158-245 | `Classify` of the output: ErrFileNotFound for a missing file, ErrBlankOutput for no lines, otherwise the loop's result |
| GaussianFile.Gaussian.ReadLine | gaussian.go:181-224 | one pass of the switch over a line gives `Step` |
| GaussianFile.Gaussian.ReadRest | gaussian.go:212-223 | the time, gradient and termination cases of the switch give `Rest` |
| MopacFile.LoadSplit | mopac.go:39-42 | the loaded header splits back into at most the first three lines of the template, then the empty piece after the last newline |
| MopacFile.Mopac.constructor | mopac.go:16-20 | a new Mopac has an empty directory, header and geometry |
| MopacFile.Mopac.Load | mopac.go:31-44 | fails exactly when the file cannot be opened, leaving the struct alone; otherwise the header is the first three lines, each newline-terminated |
| MopacFile.Mopac.GetDir | mopac.go:22 | the directory last set |
| MopacFile.Mopac.SetDir | mopac.go:23 | the directory becomes d and nothing else changes |
| MopacFile.Mopac.GetGeom | mopac.go:24 | the geometry |
| MopacFile.Mopac.SetGeom | mopac.go:25 | the geometry becomes g and nothing else changes |
| MopacFile.Mopac.AugmentHead | mopac.go:26-28 | "A0  " is put in front of the header and nothing else changes |
| MopacFile.OptHeader | mopac.go:52-57 | for an optimisation "1SCF" is removed in one pass and then "XYZ", so a header without them is written as it is |
| MopacFile.OptHeaderRejoins | mopac.go:52-57 | the two removals are single passes: for "1SXYZCF" removing "XYZ" joins a new "1SCF", which the optimisation header keeps |
| MopacFile.PointHeader | mopac.go:71-73 | for a single point "AIGIN" is removed and "1SCF XYZ " put in front, so a header without "AIGIN" gets only the prefix |
| MopacFile.FreqHeader | mopac.go:58-70 | a three-line header without "AIGIN" and without space at its ends is written for frequencies with " FORCE" at the end of its first line |
| MopacFile.Mopac.WriteInput | mopac.go:46-83 | the header for the procedure, the geometry and an empty line; a frequency header that does not trim to exactly three lines is the panic |
| MopacFile.FormattedLines | mopac.go:87-110 | with a line holding "=", the lines before it come back unchanged, then an empty line, then the lines from it on with their units removed |
| MopacFile.Mopac.FormatZmat | mopac.go:87-110 | the geometry becomes `Formatted` (with no "=" line: an empty line and the last line with its units removed), and the "improper z-matrix" error is given exactly when no line holds "=" |
| MopacFile.Mopac.FormatSplit | mopac.go:90-108 | the two loops over the split lines give `FormattedSplit` |
| MopacFile.Mopac.FormatGeom | mopac.go:112-114 | the geometry is handed back as it is |
| MopacFile.Mopac.FormatCart | mopac.go:220-223 | the geometry is stored as it is, and it never fails |
| MopacFile.Mopac.UpdateZmat | mopac.go:217-219 | the whole geometry is replaced by the new text |
| AnpassFile.FormatsOfLine | anpass.go:41-45 | a format line `(nFw1,Fw2)` of plain pieces yields the formats `%w1f` and `%w2f`: the text after the first F without its trailing comma and the text after the second F |
| AnpassFile.LoadLayout | anpass.go:26-69 | for a template with non-empty header lines, a format line at h and the first UNKNOWNS line after it at u, LoadAnpass keeps lines 0..h as the head, the format line's two formats, lines h+1..u-1 rewritten as the body and lines u.. as the tail |
| AnpassFile.BodyPart | anpass.go:35-62 | through the line before the UNKNOWNS line, the loop has read the head through the format line and rewritten every following line into the body, with an empty buffer |
| AnpassFile.TailPart | anpass.go:49-66 | from the UNKNOWNS line on, every line is appended to the tail and nothing else changes |
| AnpassFile.MissingFilePanics | anpass.go:27-36 | a template that cannot be read is read as empty, and LoadAnpass panics on its single empty line |
| AnpassFile.EmptyHeadLinePanics | anpass.go:36 | an empty line before the format line panics |
| AnpassFile.LoadAnpass | anpass.go:26-69 | the loop over the template's lines computes LoadOf: Err exactly where the Go code panics |
| AnpassFile.LoadLine | anpass.go:35-67 | one turn of the loop moves the head/body flags, the struct and the buffer exactly as Step describes |
| AnpassFile.BuiltPanicIff | anpass.go:150-158 | printing the first n rows panics exactly when some non-empty row among them has no energy at its index |
| AnpassFile.BodyPanics | anpass.go:142-160 | BuildBody panics only for a linear molecule, and then exactly when FromIntder's text has a non-empty row at or beyond the number of energies |
| AnpassFile.LinearIff | anpass.go:143-149 | BuildBody reports a linear molecule exactly when the template has more rows than there are energies |
| AnpassFile.BuildBody | anpass.go:142-160 | the method computes BodyOf: the printed rows and the linear flag, Err for the index out of range |
| AnpassFile.PrintRows | anpass.go:150-158 | the loop prints each non-empty row's fields in the first format and energy i in the second, as Built specifies |
| AnpassFile.WriteAnpass | anpass.go:163-170 | fails exactly when BuildBody fails; otherwise the text starts with the template's head and ends with its tail |
| AnpassFile.StationaryDrops | anpass.go:177-185 | with no END OF DATA line in the tail, the rewritten tail is the tail without its "!STATIONARY POINT" lines |
| AnpassFile.StationaryAppend | anpass.go:177-185 | the tail loop rewrites each line on its own: the rewrite of two joined line lists is the two rewrites joined |
| AnpassFile.StationaryInserts | anpass.go:177-185 | with exactly one END OF DATA line, at index k, the rewritten tail is the lines before k without "!STATIONARY POINT" lines, then "STATIONARY POINT", the long line and line k itself, each newline-terminated, then the lines after k without "!STATIONARY POINT" lines |
| AnpassFile.StationaryTail | anpass.go:177-185 | the loop over the tail's lines computes Stationary |
| AnpassFile.WriteAnpass2 | anpass.go:173-187 | the method computes WriteAnpass2Of: head, body and the tail with the stationary point inserted, Err when BuildBody panics |
| AnpassFile.GetLongLine | anpass.go:190-213 | Err when the output cannot be opened; otherwise the line before the first line holding 0EIGENVALUE with true, "" with true when that is the first line, and "" with false when there is none |
| InputFile.Defaults | input.go:135-163 | NewConfig's defaults: step 0.005, no Deltas, derivative level 4, job limit 1024, chunk size 8, geometry type zmat, program sic |
| InputFile.Config.NewConfig | input.go:135-163 | a new Config holds exactly the defaults of NewConfig |
| InputFile.CountPlainAll | input.go:232-236 | with no "=" in any line every line counts; with "=" in every line none does |
| InputFile.GeomCountPlain | input.go:208-238 | a z-matrix whose lines hold no "=" has one coordinate per line; an xyz or cart geometry has three per line after the count and comment lines, and is reported Cartesian |
| InputFile.ParamLinesAddNothing | input.go:232-236 | variable lines (holding "=") appended to a z-matrix add no coordinates |
| InputFile.Config.ProcessGeom | input.go:208-238 | fails exactly for no geometry or an unknown geometry type; otherwise Ncoords becomes the count of GeomCount, the cart result its flag, and nothing else changes |
| InputFile.Config.CountLines | input.go:232-236 | the loop adds incr for every line without "=" |
| InputFile.DeltasEmpty | input.go:248-275 | the empty text gives Ncoords copies of Delta |
| InputFile.Config.ParseDeltas | input.go:248-275 | the steps for the text, from Delta and Ncoords, as Deltas.FromPairs computes them; None for the "invalid deltas input" panic; the configuration is unchanged |
| InputFile.FieldFound | input.go:26-28 | every configuration field is found by the lower case of its own name |
| InputFile.AssignKey | input.go:24-28 | keys are matched without regard to case, and the value keeps any further "=" |
| InputFile.NoEqualsPanics | input.go:24-25 | a line without "=" panics (split[1] out of range) |
| InputFile.Config.ProcessInput | input.go:17-64 | fails exactly when Assign panics, apart from the panics SetField does not model; otherwise the state is what Assign gives: the named field set from the value, or nothing changed for a key naming no field |
| InputFile.Config.SetField | input.go:31-60 | energyline stores the value as its text, deltas is parsed, string fields take the text, int and float fields take the parsed number; false exactly for the parse and type panics, apart from the energyline pattern and int64 range panics it does not model |
| InputFile.Config.WhichProgram | input.go:191-204 | cccr sets the CCCRE energy line, cart or gocart picks CART, grad picks GRAD, molpro, "" or sic picks SIC; false exactly for any other program |
| InputFile.SkippedLines | input.go:83-84 | blank and comment lines change nothing |
| InputFile.BlockLines | input.go:93-94 | inside a block each plain line is appended to the block with a newline and hands nothing over |
| InputFile.BlockStep | input.go:93-94 | inside a block a plain line only goes into the block |
| InputFile.WholeBlock | input.go:85-94 | a block "key{", plain lines, "}" hands over exactly one call, the keyword followed by the lines, trimmed, and leaves the block closed and empty |
| InputFile.CallsGrow | input.go:80-98 | each scanner line hands over at most one call |
| InputFile.AssignAllNone | input.go:80-98 | once a call panics, further calls cannot undo it |
| InputFile.Stuck | input.go:80-98 | once a call panics, ParseInfile panics whatever lines follow |
| InputFile.InfileThen | input.go:99-103 | once every call went through, ParseInfile ends in ProcessGeom, the default Deltas and WhichProgram on the result |
| InputFile.FinishedDeltas | input.go:99-102 | after ParseInfile Deltas is always set and Ncoords is the geometry's count; a nil Deltas becomes Ncoords copies of Delta, a set one is kept |
| InputFile.Config.ScanLine | input.go:82-97 | one scanner line is skipped, handed to ProcessInput alone or as the trimmed block at "}", or added to the block, as InfileStep says; false exactly when the handed call panics |
| InputFile.Config.HandOver | input.go:87-96 | ProcessInput on the next call extends the calls applied so far |
| InputFile.Config.Finish | input.go:99-103 | ProcessGeom, Deltas parsed from "" when nil, then WhichProgram; false for any of their panics |
| InputFile.Config.ParseInfile | input.go:68-104 | the scanner loop and the finish compute Infile: the program kind and the final configuration, false exactly when a step panics, apart from the panics SetField does not model |
| Deltas.Pair | input.go:254-265 | a piece that parses is an integer position of at least 1 with a non-negative step; anything else is the "invalid deltas input" panic |
| Deltas.PlaceAllAt | input.go:266-269 | applying the pairs in order leaves a list as long as the largest position named, each position holding the step of the last pair naming it or Delta |
| Deltas.Beyond | input.go:266-269 | no pair names a position past the largest, so such a position keeps Delta |
| Deltas.ParsedIff | input.go:253-265 | the pairs parse exactly when each of them does, and then each to its own position and step |
| Deltas.FromPairsIff | input.go:251-265 | ParseDeltas succeeds on a non-empty text exactly when every comma-separated piece parses as a pair |
| Deltas.FromPairsAt | input.go:248-275 | on success the result is as long as the larger of Ncoords and the largest position named, each position holding the step of the last pair naming it, or Delta |
| Deltas.Padded | input.go:272-274 | growing with Delta up to Ncoords keeps every placed step and fills the rest with Delta |
| Deltas.EmptyPanics | config.go:224-229 | the configuration's ParseDeltas reads the empty text as one piece without ":", which panics |
| Deltas.ApplyPairs | input.go:252-270 | the loop over the pieces places each parsed pair in order, None for the first panic |
| Deltas.GrowTo | input.go:272-274 | the loop appends Delta until the list reaches n |
| MainFile.SetBit | main.go:65-89 | setting one of the five procedure bits turns its test on and leaves the other four tests as they were |
| MainFile.ClearBit | main.go:65-89 | clearing one bit (flags &^ bit) turns its test off and leaves the other four tests as they were |
| MainFile.ParseFlags | main.go:277-284 | -freqs runs only the frequencies, -pts the points and the frequencies, the default the optimization, the points and the frequencies; CART and GRAD are never set here |
| MainFile.NamesFrom | main.go:307-316 | every name GetNames returns is the first field of some four-field line, and every four-field line gives its name |
| MainFile.GetNames | main.go:307-316 | the loop collects the first field of each four-field line in order, as Names does |
| MainFile.Defaults | main.go:697-701 | a fresh array of ncoords entries, each the default step |
| MainFile.MainCount | main.go:691-697 | ncoords is three per line after the two header lines for an xyz geometry, otherwise one per line, and the output has that length; make panics exactly for a one-line xyz geometry (negative length) |
| MainFile.MainEmpty | main.go:702-705 | an empty input leaves every position at the default step, without error |
| MainFile.OverwriteAt | main.go:707-721 | the loop succeeds exactly when every pair parses and names a position inside the output; then each position holds the step of the last pair naming it, or what it held |
| MainFile.MainErrIff | main.go:706-723 | a non-empty input is an error exactly when some piece is not a pair, has d < 1, a negative or unparsable step, or names a position past ncoords |
| MainFile.MainAgrees | main.go:688-724 | without an error the result equals the configuration's ParseDeltas on the same text and ncoords |
| MainFile.ParseDeltas | main.go:688-724 | the method computes MainDeltas: the defaults in a fresh array, then the pairs written over them in order |
| MainFile.TotalPointsExact | main.go:726-728 | the numerator 2n(n³ + 2n² + 8n + 1) is a multiple of 3 for every n, so Go's truncating division loses nothing |
| MainFile.XYZPlain | main.go:867-892 | without a single-field first line, XYZGeom reads the names GetNames reads and three coordinates for each |
| MainFile.XYZTitled | main.go:874-882 | with a single-field first line (the atom count), the next non-empty line (the comment) is skipped too, and the atoms are read from the lines after it |
| MainFile.CoordsLength | main.go:883-889 | XYZGeom returns three coordinates per name |
| MainFile.XYZGeom | main.go:867-892 | the loop with its skip counter computes XYZ: the names and coordinates of the four-field lines after the skipped header |
| ConfigFile.KeyString | config.go:47-73 | a key that indexes the names array gets its name, in the order of the Key constants; any other key, NumKeys included, is the index panic |
| ConfigFile.Extracted | config.go:257-358 | whatever an extractor produces has the type that extractor stands for, so a value read from the input keeps its key's type |
| ConfigFile.ConfFits | config.go:277-401 | Conf has one keyword per key, and every default is nil or of the type its extractor produces |
| ConfigFile.QueueAccepts | config.go:290-300 | the queue extractor accepts exactly "workq", "r410" and "", keeping the text |
| ConfigFile.CheckIntNo | config.go:349-358 | the checkint extractor maps "no" to 0 and parses anything else as an int extractor would |
| ConfigFile.FlagsNoopt | config.go:323-331 | the flags extractor accepts exactly "noopt" and panics on anything else |
| ConfigFile.NooptClears | config.go:323-331 | "noopt" turns the optimization off and leaves the other four procedure bits alone; any other text leaves every bit alone |
| ConfigFile.Config.constructor | config.go:277-401 | a new configuration holds the Conf table, the flags ParseFlags chose and no nocheck |
| ConfigFile.Config.At | config.go:103-105 | the value stored at a valid key; None for the index panic of any other key |
| ConfigFile.Config.Set | config.go:108-110 | a valid key's value is replaced, its pattern and extractor kept and every other key untouched; false for the index panic |
| ConfigFile.Config.Extract | config.go:257-275 | the key's extractor applied to the text, with its side effects on flags (noopt) and nocheck (checkint no) and nothing else; None for an invalid key |
| ConfigFile.ClusterIgnoresCase | config.go:144-150 | the cluster patterns are case-insensitive: lower-casing the cluster name picks the same cluster |
| ConfigFile.MapleFirst | config.go:148 | the empty cluster or any name matching maple picks maple, before sequoia is tried |
| ConfigFile.Config.WhichCluster | config.go:142-157 | PBS becomes the maple or sequoia template, and sequoia's energy line is set only for sequoia; false for the panic on any other cluster, with nothing changed; no other key changes |
| ConfigFile.ProgramsAgree | config.go:161-176 | this WhichProgram and input.go's accept the same program names and pick the same kind |
| ConfigFile.Config.WhichProgram | config.go:161-176 | cccr sets the CCCRE energy line, cart or gocart sets the CART flag, grad the GRAD flag, molpro, "" and sic change nothing; false for the panic on any other program |
| ConfigFile.GeomAgrees | config.go:178-211 | for a non-empty geometry both ProcessGeom versions count the same coordinates; the empty geometry, which input.go rejects, counts here as a one-line z-matrix |
| ConfigFile.Config.ProcessGeom | config.go:178-211 | Ncoords becomes the count GeomOf gives and cart its flag; false for the no-geometry and unknown-type panics, with nothing changed; no other key changes |
| ConfigFile.DeltasForIff | config.go:218-247 | ParseDeltas fails when Deltas, Delta or Ncoords lack their types; otherwise it succeeds exactly when every comma-separated pair parses |
| ConfigFile.DeltasForAt | config.go:238-245 | on success each position holds the step of the last pair naming it, or Delta |
| ConfigFile.EmptyDeltasPanic | config.go:224-229 | an empty Deltas text panics: nothing treats it as "no pairs" |
| ConfigFile.Config.ParseDeltas | config.go:218-247 | Deltas is replaced by the parsed steps and nothing else changes; false for the panics, with nothing changed |


## Left out

- File reading, globbing and directory order: every reader takes the file's lines; `glob.glob("job*.out")` is the list of files given to `Mktest.Script`.
- Float parsing and printing (`float`, `repr`, `strconv.ParseFloat`, `%f` formats) are function parameters.
- Only the six ASCII whitespace characters count as white space; Unicode spaces are not modelled.
- Mktest.Script: Python dicts keyed by a string are modelled as an insertion-ordered list of entries.
- Mktest.OutputDecodes: the requirement that every energy prints as a JSON number is the known exception, not an assumption about the script. `float()` (mktest.py:21) also accepts "inf", "nan" and their signed forms, and the f-string at mktest.py:34 prints those values as `inf`, `-inf` or `nan`, which are not JSON; a fixture holding such an energy is not valid JSON, and the lemma says nothing about it.
- TaylorDisps.MakeDispsRoundTrip: holds for rows that are not empty; an empty row writes an empty line, which reads back as one field.
- TaylorDisps.DisplaceRow: a negative digit gives an empty pool and so no displacement; rows from `newTaylor` have no negative digits.
- TaylorDisps.Disps: the inner loops of the Go function are separate methods (`NonZero`, `Pool`, `PlaceRow`) with their own contracts.
- The fake executables' tables (`sic`, `cart`, `h2co`, `nh3`, `grad` in qsub/molpro.go, and the embedded JSON files in molpro/molpro.go) are parameters; the generated Go sources holding them are not part of this model.
- Opening the input, creating the output and the command-line flags (`-t`, `-no-xml-output`, `flag.Parse`) are parameters: whether the input opens, its lines, whether the output can be created, and the positional arguments. Messages printed to stdout or stderr are not modelled.
- `bufio.Scanner` limits (a line longer than 64 KiB stops the scan) and its removal of a trailing "\r" are not modelled.
- `%20.12f` and `%20.15f` formatting are function parameters of `FakeMolpro.Report`.
- MolproMain.Unmarshal: member names are matched to fields up to ASCII case only; `encoding/json` also folds the Kelvin sign and the long s, which the field names here do not contain.
- MolproMain.Unmarshal: on a type error `encoding/json` goes on storing the remaining members before returning the error; the model stops at the first one, which makes no difference here because the program then exits with status 2.
- MolproMain.Unmarshal: the JSON syntax is that of the fixture files (the Json module's decoder); a syntax error anywhere gives status 2 as in the source.
- FinDiff.Make4D: the Scale, which the Go functions compute in float64 from the configured step sizes (`Conf.FlSlice(Deltas)`), is a parameter of every Make function; so is the panic of an index outside the step sizes.
- FinDiff.Build: the float64 coefficients are the integers the tables write; every one of them is exact in float64.
- FinDiff.Table4Sound: the shared index is proved to have the same length and the same coordinates as the arguments, not to be the same list; the cases write it reordered (`[i, i, i, k]` for i == j == l).
- HashName.JobName: `%010d` is modelled for counters that are not negative; the counter only ever grows from zero.
- Types.Add: the state left after the panic is stated (the decremented count) but nothing the driver does after it; Go stops there.
- Types.GarbageHeap.Dump: `os.Remove` is I/O; its errors are ignored by the source and the model returns the names it would remove.
- BigHash.Table.Lookup: Go stores pointers to records that the driver later updates through `At`; the table here holds the records as values, so updating a record through another alias is not modelled.
- Checkpoint.MakeCheckpoint: `json.MarshalIndent`, its panic and `ioutil.WriteFile` are not modelled; each write is the file name and the array that would be encoded. `LoadCheckpoint` only reads those files back through `encoding/json` and is left out with the JSON decoder.
- Queue.Driver.Push: `WritePBS`, `Submit` and `PBSnodes` talk to the cluster; the job id and the node list are parameters and the PBS file is the returned Job. The CPU count and memory copied from the configuration, the `-debug` message, and the updates of the local `count` and `pf`, which the function discards, are not modelled. The job name `MakeName(Geometry)+"pts"` is a parameter.
- Output.ParseOutput: opening the file (its panic) and `strconv.ParseFloat` are outside the model; the float parser is a parameter. `FormatOutput`, which only prints, is left out.
- Parallel.CheckProg: `strconv.Atoi` is modelled without its 64-bit range limit. On a decimal outside int64 Go's `Atoi` returns MaxInt64 or MinInt64 together with a range error, which parallel.go:35 discards, so `maxjobs` is clamped where the model keeps the exact number. The count `curjobs` is a single digit, so `curjobs < maxjobs && curjobs > 0` (parallel.go:42) has the same value for the clamped and the exact limit: the dropped range limit changes nothing in CheckProg's result.
- Taylor.ModCheckIff: `ChecksFit` admits a check with `check[0] >= 1` only when `check[0]-1 <= check[1] <= len(row)`, so the model states nothing about the other checks. In Go, `row[check[0]-1:check[1]]` panics when `check[0]-1 > check[1]`, or when `check[1]` exceeds the row's capacity. `Row` builds the row by `append` from an empty slice, so that capacity can exceed `len(row)` (it is 4 for a row of 3 digits). A check with `len(row) < check[1] <= cap(row)` therefore does not panic in Go: it also sums the zeroed slots past the end, which gives the sum over `row[check[0]-1:len(row)]`, or 0 when `check[0]-1 >= len(row)`. The model states neither that case nor the panic beyond the capacity. The same holds for Taylor.EqCheckIff and for `KeptCases`, `NewTaylor` and the `TaylorRows` lemmas, which take `ChecksFit`.
- intder.go: `(*Intder).ConvertCart` and `(*Intder).AddDummy` (intder.go:226-287) are not modelled: they parse the coordinates with `strconv.ParseFloat` and print them with the `%17.9f`-style geometry formats, and between those float conversions they only call the modelled `Pattern`, `MatchPattern`, `SwapStr` and `ApplyPattern`.
- intder.go: `LoadIntder`, `WritePts`, `WriteGeom`, `WriteFreqs`, `ReadGeom`, `ReadOut` and `Read9903` open, read and write files; the pattern matching they feed is modelled, and qff.go's versions of the loader, `Read9903`, `ReadOut` and `WriteGeom` are modelled in Qff. `Pprint` only prints.
- qff.go: `ConvertCart`, `WritePts`, `WriteFreqs`, `ReadGeom`, `BuildPoints` and the `Run*` helpers read and write files or run programs. Its `LoadSpectro`, `ParseCoriol`, `ParseFermi1` and `ParseFermi2` are the same text as spectro.go's, modelled in SpectroFile; its `WriteInput`, which writes no resonance sections, is not modelled.
- Qff.Intder.LoadIntder, Qff.Intder.Read9903: the file is given as its lines, so the panic when it cannot be opened is outside the model.
- spectro.go: `FreqReport` reads the frequencies for the summary table and is not modelled.
- SpectroFile.Separated: `strconv.Atoi` with its error dropped (spectro.go:219 and 271) is modelled as AtoiOrZero, which gives 0 for text that is not a number but keeps the exact value of a number outside int64. Go's `Atoi` returns MaxInt64 or MinInt64 for such a number, so `Separated`, `ReadKey` and the RESIN lines built from them differ from Go on a field beyond int64. The same holds for SpectroFile.ReadKey and SpectroFile.Spectro.CheckPolyad, which read the keys back.
- molpro.go: `HandleOutput`, `ReadLog` and `ReadFreqs` read log files for the driver's messages and are not modelled; the older `BuildPoints`, `Step`, `Derivative`, `ZipXYZ`, `Push`, `BuildCartPoints`, `GradDerivative` and `BuildGradPoints` in this file are earlier copies of program.go's and are not modelled. program.go's generators are modelled without their `Push` and `Step` calls (see the lines for Points.PointsGen.Next and Derivatives.Derivative below); queue.go's `Push` is Queue.Driver.Push.
- MolproFile.Molpro.LoadMolpro: the template is given as its lines; the error returned when it cannot be opened is outside the model. The `(?i)[^_]error` pattern of `ReadOut` and the configured energy line are predicates on lines.
- GaussianFile.Gaussian.LoadGaussian: the template is given as its lines; the charge-and-spin pattern and the removal of `opt`/`freq` from the route line are parameters. `WriteInput`'s `os.Create` and its panic are outside the model: `MakeInput` returns the text. `HandleOutput`, `ReadFreqs`, `Run` and the older point generators are not modelled.
- MopacFile.Mopac.FormatZmat: the `(?i)\s+(ang|deg)` pattern is a function on lines. `Run`, `ReadOut`, `HandleOutput` and `ReadFreqs` run MOPAC or read its output and are not modelled.
- AnpassFile.BuildBody: `FromIntder`, which reads intder's file07, is a parameter (its text); parsing a number and each `%…f` format are parameters. `RunAnpass` and `DoAnpass` run the program. The warning `GetLongLine` prints about RESIDUALS goes to stderr and is not modelled.
- AnpassFile.Formats: `strings.ToUpper` (anpass.go:42) is modelled on ASCII letters only, so a non-ASCII lower-case letter in the format line keeps its case in the formats here while Go upper-cases it. No letter outside ASCII upper-cases to "F", so the line splits at the same places; Go's byte slicing `s[1][:len(s[1])-1]` and the model's character slicing agree while the character before the comma is ASCII.
- AnpassFile.Formats: its contract only says where the slicing panics; what the format line yields is stated by AnpassFile.FormatsOfLine for lines of the form `(nFw1,Fw2)`.
- InputFile.Config.ParseInfile: the file is given as its lines; opening it (and its panic) is outside the model. `WhichCluster` of input.go is not modelled: its sequoia pattern `PBQFF\(2\` is not a valid regular expression, so `regexp.MustCompile` panics on that branch. `Config.String` only prints.
- InputFile, ConfigFile: `strings.ToLower` and the `(?i)` patterns are modelled on ASCII letters only; `strconv.ParseFloat`, with its range errors and infinities, is a parameter.
- ConfigFile: the `(?i)` key patterns are kept as their text and matched as an ASCII-lower-case substring; `Config.String` only prints; `Str`, `Float`, `FlSlice`, `Int` and `RE` are type assertions on a value and appear as tests on the `Value` constructors; the package variables `flags` and `nocheck` are fields beside the keyword array; after a panic the state is not modelled (Go stops there).
- Points.PointsGen.Next: the Go closure returns `Push(q, dir, pf, count, calcs[start:end])` (program.go:129-133); the model returns the chunk that is pushed and its pf, and the submission is Queue.Driver.Push, which the closure's caller does not see here.
- CartPoints.CartGen.Next: the chunk is returned as built, without the `Push(q, dir, pf, count, calcs)` of program.go:189 and 198 that stamps and submits it.
- GradPoints.GradGen.Next: the chunk is returned as built, without the `Push(q, dir, pf, count, calcs)` of program.go:245 and 252 that stamps and submits it.
- Points.BuildPoints: `p.AugmentHead()` (program.go:50) and the program state set by `p.SetGeom(p.FormatGeom(...))` (program.go:71) are not modelled; the formatted geometry appears only in the returned inputs, and only when writing is on.
- Derivatives.Derivative: displacing the geometry (`Step`, `ZipXYZ`, `prog.FormatCart`, program.go:280-281) and `prog.WriteInput` (program.go:334-337) are not modelled; the calcs do not carry the geometry their input file would hold.
- GradDerivatives.GradDerivative: as for Derivative, `Step`, `ZipXYZ`, `prog.FormatCart` (program.go:375-376) and `prog.WriteInput` (program.go:416-418) are not modelled.
- Derivatives.JoinPath: `filepath.Join` also cleans the joined path (doubled or trailing '/', '.' and '..' elements); the model only puts one '/' between a non-empty directory and the name, which agrees for the clean directories `filepath.Join(p.GetDir(), dir)` produces.
- GaussianFile.Gaussian.ReadOut: gaussian.go:187-188 matches a package variable `ErrorLine` that no file in this repository defines; the model takes it to be molpro.go's `(?i)[^_]error` pattern (MolproFile.ErrorLine), which is an assumption. The same holds for GaussianFile.FirstHalt and GaussianFile.Gaussian.ReadLine.
- GaussianFile.FirstLine: `strings.ToUpper` is modelled on ASCII letters only, so a first line holding "panıc" with a dotless ı, which Go upper-cases to "PANIC", is not the requested panic here. The "ERROR" test is unaffected: the only letters outside ASCII that Go upper-cases into ASCII are ı and ſ.
- MolproFile.Molpro.ReadOut: `strings.ToUpper` is modelled on ASCII letters only; for the "ERROR" test on a one-line output this makes no difference, since ı and ſ, the only letters outside ASCII that Go upper-cases into ASCII, do not occur in "ERROR".
- InputFile.Config.SetField: the energyline value is stored as text; `regexp.MustCompile` and its panic on an invalid pattern are not modelled. Int fields take `Atoi`'s value without Go's 64-bit range check, so a number outside int64, which panics in Go, is stored. The same holds for InputFile.Config.ProcessInput and InputFile.Config.ParseInfile, which call it.
- Deltas.Pair: the position is read without `strconv.Atoi`'s 64-bit range check (input.go:258, and config.go:230 in the configuration's copy); a position beyond int64 is accepted instead of the "invalid deltas input" panic.
- ConfigFile.Config.Extract: `IntKeyword` (config.go:270) reads the number without `strconv.Atoi`'s 64-bit range check, so an integer beyond int64 is accepted instead of the keyword panic.
- MainFile.ParseFlags: registering and parsing the command-line flags, `-format`, `-c` (the checkpoint load) and the returned arguments are not modelled; the function takes the two flag values.
- MainFile.TotalPoints: Go's 64-bit `int` overflow is not modelled; the numerator overflows only for n above about 46,000.
- main.go: `UpdateZmat` is modelled as Zmat.UpdateZmat, which the Molpro and Gaussian methods also use. `WhichCluster`, `Optimize`, `RefEnergy`, `Frequency`, `Drain`, the queue helpers, `Summarize`, the `PrintFile*` writers and `main` run jobs, poll the cluster or print, and are not modelled.
