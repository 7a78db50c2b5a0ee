# go-data core in Dafny

A model of the data core of the Go library `go-data`. The core is made of four parts.

- **Typed series.** These are immutable vectors of `int64`, `float64` or `string`. They support append, apply, clone, concat, subset, find, filter masks, pass-through, sort, min/max and sum.
- **Truth filters.** Boolean masks that are combined pointwise with `Not`, `And` and `Or`.
- **Boxed elements.** `element.Element` values and the `Iterator` that walks over them.
- **Two DataFrames.** A DataFrame maps column names to typed descriptors and holds one series map per element type.
  - The error-returning DataFrame of `dataframe.go` is copy-on-write.
  - The panicking variant of `pandas/DataFrame.go` starts from nil maps.

CSV loading is modelled from the parsed rows onwards.

Module layout, one module per source file (a shared module holds what the three series files have in common):

| module | file | models |
|---|---|---|
| `Dtypes` | `dtype.dfy` | `element/DType.go` |
| `Errors` | `errors.dfy` | `errors.go`, plus the plain and wrapped errors of `github.com/pkg/errors` |
| `GoNumbers` | `numbers.dfy` | `int64` with wrap-around; `float64` |
| `Elements` | `element.dfy` | `element/element.go` |
| `Iterators` | `iterator.dfy` | `element/iterator.go`; `Iterator` is a class, and its methods update `pos` and `err` in place |
| `TruthFilters` | `truth_filter.dfy` | `pandas/TruthFilter.go` |
| `SeriesCore` | `series.dfy` | the operations that `pandas/IntSeries.go`, `FloatSeries.go` and `StringSeries.go` share |
| `IntSeries`, `FloatSeries`, `StringSeries` | `int_series.dfy`, `float_series.dfy`, `string_series.dfy` | the per-type parts |
| `DataFrames` | `dataframe.dfy` | `dataframe.go` |
| `Load` | `load.dfy` | `load.go` from line 24 on |
| `PandasFrames` | `pandas_dataframe.dfy` | `pandas/DataFrame.go` |
| `Wrappers` | `wrappers.dfy` | `Option` |

Modelling choices:

- **Loops.** The source's loops stay `method`s with `while`/`for` loops. Each method is proved against a specification function: `Negation`, `Mapped`, `Selected`, `RunningBest`, `Populated` and others.
- **DataFrames as values.** Every DataFrame operation in `dataframe.go` builds a fresh frame through `Clone`, so a frame is modelled as a value (a datatype of four maps).
  - `Valid` is its invariant: each descriptor is filed under its own name with a known type, and each name has a series in exactly the typed map of its type.
  - Every operation preserves `Valid`, and the getters state what each operation changes.
- **The pandas frame.** Here the nil/allocated distinction is observable (writing into a nil map is a Go runtime panic), so its maps are `NilMap`s. Calls end in `Done(value)` or `Panic(message)`.
- **Code over tests.** Where the tests or the documented intent disagree with the code, the model follows the code:
  - `dataframe_test.go:179-184` expects `SetFloatColumn` on a name held by a column of another type to return an error. `dataframe.go:163-173` logs a warning and returns an unchanged clone (`DataFrames.SetFloatColumn` states exactly that).
  - The documented intent is that `Max` of `[-5, -1, -9]` is `(1, -1)`. The code gives `(0, 0)`. See the findings below.

## Model

| member | source | states |
|---|---|---|
| Dtypes.Name | element/DType.go:12-22 | "Integer", "String" and "Float" for the three tags; "" for any other value |
| Dtypes.NameIdentifiesTag | element/DType.go:5-22 | the name is non-empty exactly for the three known tags, and distinct known tags have distinct names |
| Errors.Message | errors.go:10-29 | `Duplicate` reads "duplicate <what>: <value>" and `Unknown` reads "unknown <what>: <value>"; `ProcessingError` shows its cause's message unchanged; a wrapped error is "<context>: <cause>" |
| Errors.DuplicateNeverReadsAsUnknown | errors.go:10-21 | no `Duplicate` message equals an `Unknown` message |
| GoNumbers.Wrap | pandas/IntSeries.go:33-39 | int64 wrap-around: the result is in int64 range and congruent to the input modulo 2^64, and an in-range input is unchanged |
| GoNumbers.WrapAbsorbs | pandas/IntSeries.go:33-39 | wrapping after each addition equals wrapping once at the end |
| Elements.New | element/element.go:12-14 | definition only: boxes the value |
| Elements.String | element/element.go:16-22 | never an error; a boxed string comes back as it is, anything else as `fmt.Sprint` renders it |
| Elements.Int | element/element.go:28-34 | no error iff the box holds an `int`, and then its value; otherwise `(0, "invalid cast to int")` |
| Elements.Float | element/element.go:40-46 | no error iff the box holds a `float64`, and then its value; otherwise `(0, "invalid cast to float")` |
| Elements.MustString | element/element.go:24-26 | defined only on a boxed string (else a panic); agrees with `String` |
| Elements.MustInt | element/element.go:36-38 | defined only on a boxed int; agrees with `Int` |
| Elements.MustFloat | element/element.go:48-50 | defined only on a boxed float64; agrees with `Float` |
| Elements.BoxRoundTrip | element/element.go:12-46 | boxing a value with `New` and reading it with the matching accessor gives the value back without error |
| Iterators.Iterator.NewIterator | element/iterator.go:9-15 | the data is the values boxed in order; the position is -1 and there is no error |
| Iterators.Iterator.HasNext | element/iterator.go:17-19 | as written: true iff an error has been recorded and an element is left |
| Iterators.Iterator.HasNextIntended | element/iterator.go:17-19 | true iff no error has been recorded and an element is left |
| Iterators.Iterator.NextInt | element/iterator.go:21-28 | advances one position and returns the `Int` cast of that element; a failed cast replaces the error, a good one keeps it |
| Iterators.Iterator.NextString | element/iterator.go:30-37 | advances one position and returns the `String` of that element; the error is unchanged |
| Iterators.Iterator.NextFloat | element/iterator.go:39-46 | advances one position and returns the `Float` cast; a failed cast replaces the error, a good one keeps it |
| Iterators.Iterator.Error | element/iterator.go:48-50 | definition only: the recorded error |
| Iterators.HasNextNeedsAnError | element/iterator.go:17-19 | on an iterator without an error, the written `HasNext` is false |
| Iterators.FreshIteratorDisagrees | element/iterator.go:9-19 | a fresh iterator over one value has an element left, but the written `HasNext` denies it |
| TruthFilters.Negation | pandas/TruthFilter.go:5-10 | same length, every entry negated |
| TruthFilters.Conjunction | pandas/TruthFilter.go:12-17 | length of the receiver; entry i is `t[i] && u[i]`; the `&&` short-circuits, so a shorter `u` is accepted as long as `t` is false past its end |
| TruthFilters.Disjunction | pandas/TruthFilter.go:19-24 | length of the receiver; entry i is `t[i] \|\| u[i]`; the `\|\|` short-circuits, so a shorter `u` is accepted as long as `t` is true past its end |
| TruthFilters.Not | pandas/TruthFilter.go:5-10 | the append loop builds `Negation(t)` |
| TruthFilters.And | pandas/TruthFilter.go:12-17 | the append loop builds `Conjunction(t, u)`; Go panics only on a true entry of `t` past the end of `u`, which the requires excludes |
| TruthFilters.Or | pandas/TruthFilter.go:19-24 | the append loop builds `Disjunction(t, u)`; Go panics only on a false entry of `t` past the end of `u`, which the requires excludes |
| TruthFilters.NotIsInvolution | pandas/TruthFilter.go:5-10 | negating twice gives the mask back |
| TruthFilters.DeMorgan | pandas/TruthFilter.go:5-24 | for equal lengths, not(t and u) = not t or not u, and not(t or u) = not t and not u |
| TruthFilters.ShortSecondMask | pandas/TruthFilter.go:12-24 | `{false, false}.And({})` is `{false, false}` and `{true}.Or({})` is `{true}`: the unread entries need not exist |
| TruthFilters.NotExample | pandas/TruthFilter.go:5-10 | `{true, false, true}.Not()` is `{false, true, false}` |
| SeriesCore.Clone | pandas/IntSeries.go:27-31 | the copy has equal contents; the same code sits at the same lines of `FloatSeries.go` and in `StringSeries.go` |
| SeriesCore.Size | pandas/IntSeries.go:41-43 | definition only: the number of elements |
| SeriesCore.Index | pandas/IntSeries.go:77-79 | definition only: the element at a position; Go panics outside the series, which the requires excludes |
| SeriesCore.Concat | pandas/IntSeries.go:81-83 | the sizes add up; the receiver's elements come first, at their own positions, then `x`'s |
| SeriesCore.Subset | pandas/IntSeries.go:85-87 | `end - start` elements; element k is the receiver's element `start + k` |
| SeriesCore.ConcatThenSplit | pandas/IntSeries.go:81-87 | `Concat` has the sum of the sizes, and subsetting it at the first size gives back both parts |
| SeriesCore.SplitThenConcat | pandas/IntSeries.go:81-87 | concatenating adjacent subsets gives the subset that spans both |
| SeriesCore.AppendCopy | StringSeries.go:11-15 | the new series holds the receiver's elements followed by the appended ones |
| SeriesCore.Mapped | pandas/IntSeries.go:19-25 | same length; element k is `op(data[k])` |
| SeriesCore.Apply | pandas/IntSeries.go:19-25 | the append loop builds `Mapped(data, op)`; the same code sits at the same lines of `FloatSeries.go` and in `StringSeries.go` |
| SeriesCore.ApplyIdentity | pandas/IntSeries.go:19-31 | applying the identity to a clone gives the data back |
| SeriesCore.ApplyTwice | pandas/IntSeries.go:19-25 | two applies equal one apply of the composition |
| SeriesCore.Filter | pandas/IntSeries.go:122-127 | a mask with one entry per element, entry k being `accept(data[k])`; the same code sits at the same lines of `FloatSeries.go` and in `StringSeries.go` |
| SeriesCore.Selected | pandas/IntSeries.go:89-97 | no longer than the mask or the data; everything kept is some `data[k]` with `f[k]` true and `k` below both lengths; completeness and order are stated by `SelectedAtPositions` |
| SeriesCore.Positions | pandas/IntSeries.go:89-97 | the positions a mask selects, strictly increasing: exactly the `k` below both lengths with `f[k]` true |
| SeriesCore.SelectedAtPositions | pandas/IntSeries.go:89-97 | for every mask and data, the kept elements are the data at the selected positions, each once and in order |
| SeriesCore.SelectedComplete | pandas/IntSeries.go:89-97 | every `data[k]` whose mask entry is true, with `k` below both lengths, is kept |
| SeriesCore.PassThrough | pandas/IntSeries.go:89-97 | the mask loop builds `Selected(data, filter)`; the same code sits at the same lines of `FloatSeries.go` and in `StringSeries.go` |
| SeriesCore.SelectedIgnoresTails | pandas/IntSeries.go:89-97 | mask entries past the data, and data past the mask, change nothing |
| SeriesCore.SelectedAllTrue | pandas/IntSeries.go:89-97 | an all-true mask keeps a prefix of the data as long as the mask |
| SeriesCore.SelectedNoneTrue | pandas/IntSeries.go:89-97 | an all-false mask keeps nothing |
| SeriesCore.Kept | pandas/IntSeries.go:89-127 | the reference for masking: only elements of the data that satisfy `p` |
| SeriesCore.PassThroughOwnFilter | pandas/IntSeries.go:89-127 | `PassThrough(Filter(p))` keeps exactly the elements satisfying `p`, in order |
| SeriesCore.Find | pandas/IntSeries.go:113-120 | -1 iff the value is absent; otherwise the first index holding it; `FloatSeries.go` has the same code at the same lines |
| SeriesCore.Extremum | pandas/IntSeries.go:57-75 | the `Max`/`Min` loop computes `RunningBest` from the seed |
| SeriesCore.Reversed | pandas/IntSeries.go:67-75 | the order read backwards, which `Min` uses |
| SeriesCore.ReversedIsStrictTotalOrder | pandas/IntSeries.go:67-75 | the reversed order is again a strict total order |
| SeriesCore.RunningBestMeaning | pandas/IntSeries.go:57-75 | under a strict total order the running best: is not exceeded; is at least the seed; is the seed at position 0 exactly when no element beats the seed, and otherwise the first occurrence of the extremum |
| SeriesCore.FirstBest | pandas/IntSeries.go:57-75 | seeded with the first element, the result is a true extremum at its first occurrence |
| IntSeries.IntLessIsStrictTotalOrder | pandas/IntSeries.go:51-59 | `<` on int64 is a strict total order |
| IntSeries.Append | pandas/IntSeries.go:13-17 | as written: returns the receiver |
| IntSeries.AppendDropsElements | pandas/IntSeries.go:13-17 | appending 2 to [1] gives [1]; the copy-append gives [1, 2] |
| IntSeries.TotalOfConcat | pandas/IntSeries.go:33-39 | the exact total of a concatenation is the sum of the totals |
| IntSeries.Sum | pandas/IntSeries.go:33-39 | the loop's result is the exact total wrapped to int64 |
| IntSeries.SumIsExactWhenItFits | pandas/IntSeries.go:33-39 | no wrap when the total fits in int64; 0 for an empty series |
| IntSeries.SumOfConcat | pandas/IntSeries.go:33-39 | the sum of a concatenation is the wrapped sum of the two sums |
| IntSeries.Insert | pandas/IntSeries.go:49-55 | inserting into an ascending sequence keeps it ascending and adds exactly the one element |
| IntSeries.Sorted | pandas/IntSeries.go:49-55 | an ascending permutation of the data |
| IntSeries.AscendingPermutationIsUnique | pandas/IntSeries.go:49-55 | two ascending permutations of the same data are equal, so any correct sort gives `Sorted`'s answer |
| IntSeries.Sort | pandas/IntSeries.go:49-55 | a new series with the same size, ascending and a permutation of the data |
| IntSeries.SortIsIdempotent | pandas/IntSeries.go:49-55 | sorting twice is sorting once |
| IntSeries.Max | pandas/IntSeries.go:57-65 | as written: at least 0 and no element exceeds it; if some element is positive, the first maximum and its position; otherwise (0, 0) |
| IntSeries.Min | pandas/IntSeries.go:67-75 | as written: at most 0 and no element is below it; if some element is negative, the first minimum and its position; otherwise (0, 0) |
| IntSeries.MaxMissesNegatives | pandas/IntSeries.go:57-65 | `Max` of [-5, -1, -9] is (0, 0); the first-element seed gives (1, -1) |
| IntSeries.MinMissesPositives | pandas/IntSeries.go:67-75 | `Min` of [5, 1, 9] is (0, 0), against (1, 1) for the first-element seed; `Min` of [-5, -1, -9] is (2, -9) |
| IntSeries.GreaterThan | pandas/IntSeries.go:99-104 | one entry per element: `element > value` |
| IntSeries.SmallerThan | pandas/IntSeries.go:106-111 | one entry per element: `element < value` |
| IntSeries.ShortMaskExample | pandas/IntSeries.go:89-97 | [1, 2, 3] passed through {true, false} is [1] |
| FloatSeries.FloatLessIsStrictTotalOrder | FloatSeries.go:57-75 | `<` on the modelled float64 is a strict total order |
| FloatSeries.Append | FloatSeries.go:13-17 | as written: returns the receiver |
| FloatSeries.AppendDropsElements | FloatSeries.go:13-17 | appending 2.0 to [1.0] gives [1.0]; the copy-append gives [1.0, 2.0] |
| FloatSeries.Max | FloatSeries.go:57-65 | as written: the zero-seeded maximum (see `IntSeries.Max`) |
| FloatSeries.Min | FloatSeries.go:67-75 | as written: the zero-seeded minimum |
| FloatSeries.MaxMissesNegatives | FloatSeries.go:57-65 | `Max` of [-5.0, -1.0, -9.0] is (0, 0.0); the first-element seed gives (1, -1.0) |
| FloatSeries.MinMissesPositives | FloatSeries.go:67-75 | `Min` of [5.0, 1.0, 9.0] is (0, 0.0); the first-element seed gives (1, 1.0) |
| FloatSeries.GreaterThan | FloatSeries.go:99-104 | one entry per element: `element > value` |
| FloatSeries.SmallerThan | FloatSeries.go:106-111 | one entry per element: `element < value` |
| StringSeries.Append | StringSeries.go:11-15 | a new series: the receiver's elements, then the appended ones |
| StringSeries.Matches | StringSeries.go:57-62 | one entry per element: `element == str` |
| StringSeries.Equal | StringSeries.go:57-62 | the loop builds `Matches(s, str)` |
| StringSeries.NotEqual | StringSeries.go:64-69 | the loop builds the pointwise negation of `Equal`'s mask |
| StringSeries.PassThroughEqual | StringSeries.go:47-62 | masking with `Equal(str)` keeps exactly the occurrences of `str` |
| DataFrames.NewStringColumn | dataframe.go:20-25 | a descriptor with that name and the known String type |
| DataFrames.NewIntColumn | dataframe.go:27-32 | a descriptor with that name and the known Integer type |
| DataFrames.NewFloatColumn | dataframe.go:34-39 | a descriptor with that name and the known Float type |
| DataFrames.ExactlyOneTypedMap | dataframe.go:8-13 | in a valid frame a name is a column iff it has a series in exactly one typed map |
| DataFrames.NoOffenderMeansDistinctKnown | dataframe.go:49-69 | no column trips the loop's checks iff the names are distinct and every type is known |
| DataFrames.NewDataFrame | dataframe.go:41-71 | success iff no column repeats an earlier name or has an unknown type. On success: a valid frame declaring exactly the given columns (as a multiset), each with an empty series of its type. Otherwise: the zero frame and the error of the first offending column, the duplicate check first |
| DataFrames.Columns | dataframe.go:73-78 | each descriptor once, names distinct, in no particular order; with `NewDataFrame` it gives back the declared columns |
| DataFrames.StringColumn | dataframe.go:80-88 | a copy of the stored series iff the name is in the string map; otherwise `Unknown("column", name)` and an empty series |
| DataFrames.FloatColumn | dataframe.go:90-98 | the same, for the float map |
| DataFrames.IntColumn | dataframe.go:100-108 | the same, for the int map |
| DataFrames.GettersFollowDescriptors | dataframe.go:80-108 | in a valid frame a getter succeeds iff the descriptor has that getter's type; a column of another type reads as unknown |
| DataFrames.Clone | dataframe.go:123-137 | an equal frame; the inner `NewDataFrame` cannot fail on a valid frame's columns |
| DataFrames.DropColumn | dataframe.go:110-121 | the name removed from all four maps; the frame stays valid; every getter then reports the name unknown; other names read as before; an absent name changes nothing |
| DataFrames.SetStringColumn | dataframe.go:139-149 | a new name becomes a string column holding the value, and a string column gets the value; a column of another type leaves the frame unchanged. The frame stays valid and other names read as before |
| DataFrames.SetIntColumn | dataframe.go:151-161 | the same, for int columns |
| DataFrames.SetFloatColumn | dataframe.go:163-173 | the same, for float columns |
| Load.Decimal | load.go:36 | `%d` of a non-negative int: a non-empty string of digits, with no leading zero except for 0 itself |
| Load.DecimalRoundTrip | load.go:36 | reading the numeral back gives the number |
| Load.DecimalInjective | load.go:36 | distinct numbers print differently |
| Load.SynthesizedName | load.go:36 | "Column " followed by the numeral |
| Load.ColumnNames | load.go:28-38 | the header row, or one "Column i" per field of the first row |
| Load.DataRows | load.go:29-38 | all rows but the header, or all rows |
| Load.Declarations | load.go:30-37 | one string descriptor per name, in order |
| Load.SynthesizedNamesDistinct | load.go:34-38 | synthesized names never collide |
| Load.DeclareColumns | load.go:28-38 | the two append loops build one string descriptor per name |
| Load.FieldColumn | load.go:46-50 | column j holds field j of every data row, in row order |
| Load.DeclarationsAccepted | load.go:39-44 | declaring string columns fails exactly on a repeated name, and names the first repeat |
| Load.LoadCSV | load.go:24-53 | no rows gives an empty frame. Otherwise success iff the names are distinct, which always holds without a header; a repeat gives `ProcessingError(Wrap(Duplicate))` of the first repeat and the zero frame. On success: only string columns, one per name, column j holding field j of every data row in order |
| PandasFrames.Store | pandas/DataFrame.go:47 | a map write panics with "assignment to entry in nil map" exactly on a nil map |
| PandasFrames.Delete | pandas/DataFrame.go:97-102 | `delete` removes the key and is a no-op on a nil map |
| PandasFrames.Populate | pandas/DataFrame.go:43-59 | the loop, from any starting frame, ends as `Populated` says: the first panic (duplicate, nil-map write or unknown type) or the filled frame |
| PandasFrames.NewDataFrame | pandas/DataFrame.go:41-61 | as written: the empty frame for no columns; otherwise the nil-map panic at the first descriptor write |
| PandasFrames.PopulatedFromAllocated | pandas/DataFrame.go:43-59 | from allocated maps the loop succeeds iff no column repeats an earlier or existing name and every type is known |
| PandasFrames.AllocatedAgreesWithDataFrames | pandas/DataFrame.go:41-61 | from allocated empty maps it accepts exactly the column lists that `DataFrames.NewDataFrame` accepts |
| PandasFrames.View | pandas/DataFrame.go:8-13 | reads the four maps as a frame of `dataframe.go`; allocating that frame gives back an allocated frame |
| PandasFrames.PopulatedBuilds | pandas/DataFrame.go:43-59 | from allocated maps, every column the loop admits is declared exactly as `dataframe.go`'s loop declares it |
| PandasFrames.NewDataFrameIntended | pandas/DataFrame.go:41-61 | the loop started from allocated maps succeeds iff `dataframe.go`'s constructor would. On success the frame satisfies that file's invariant, has all series empty, and files each given column under its name, once per column |
| PandasFrames.Columns | pandas/DataFrame.go:63-68 | one descriptor per key, in some order of the distinct keys; a descriptor is in the result iff it is stored in the map |
| PandasFrames.StringColumn | pandas/DataFrame.go:70-76 | the stored series itself iff present; otherwise panics with "string column named <name> not found" |
| PandasFrames.FloatColumn | pandas/DataFrame.go:78-84 | the same for floats: "float column named <name> not found" |
| PandasFrames.IntColumn | pandas/DataFrame.go:86-92 | the same for ints: "int column named <name> not found" |
| PandasFrames.GettersAgreeWithDataFrames | pandas/DataFrame.go:70-92 | on the same maps the getters succeed where `dataframe.go`'s succeed, with the same series, and panic where those report unknown |
| PandasFrames.CopyColumns | pandas/DataFrame.go:108-119 | from any start: no columns leaves the start as it is; a nil descriptor map panics; on completion every descriptor is filed under its name. From allocated empty maps, a frame whose maps meet `dataframe.go`'s invariant is copied exactly |
| PandasFrames.CopiedStep | pandas/DataFrame.go:108-119 | one pass of the copy loop: the descriptor is filed under its own name, its series exists, and the partial copy still agrees with the source |
| PandasFrames.CopiedAll | pandas/DataFrame.go:108-119 | once every name is copied, the copy equals the source |
| PandasFrames.CloneIntended | pandas/DataFrame.go:107-121 | cloning into allocated maps gives an allocated frame with the same contents, for every frame meeting `dataframe.go`'s invariant |
| PandasFrames.Clone | pandas/DataFrame.go:107-121 | the empty frame when there are no columns; otherwise the nil-map panic |
| PandasFrames.DropColumn | pandas/DataFrame.go:94-105 | the clone's outcome, with the deletes being no-ops |
| PandasFrames.SetStringColumn | pandas/DataFrame.go:123-127 | always the nil-map panic |
| PandasFrames.SetIntColumn | pandas/DataFrame.go:129-133 | always the nil-map panic |
| PandasFrames.SetFloatColumn | pandas/DataFrame.go:135-139 | always the nil-map panic |
| PandasFrames.SetStringColumnIntended | pandas/DataFrame.go:123-127 | the allocated clone with the value stored under the name in the string map, and no other map changed. The string getter then returns the value; every other name reads as before |
| PandasFrames.SetIntColumnIntended | pandas/DataFrame.go:129-133 | the same, for the int map |
| PandasFrames.SetFloatColumnIntended | pandas/DataFrame.go:135-139 | the same, for the float map |

## Left out

- Logging (`log.Get()`): the messages logged on errors and warnings are side effects with no bearing on results.
- CSV reading (`load.go:15-22`): `csv.NewReader`/`ReadAll` and the read-error path. `LoadCSV` takes parsed rows. It requires every row to have the first row's field count, which `encoding/csv` enforces by default.
- Float and int averages (`Avg`), the float `Sum` and the float `Sort`: these need float64 division, rounding or NaN ordering. `Float64` is modelled by `real`, so NaN, infinities and rounding are not represented.
- `SeriesCore.Find`: on float64 it uses real equality, so `NaN != NaN` is not captured.
- Go's `int` is taken as 64-bit (`Int64`) for `element.Int`.
- Slice aliasing. Series are immutable sequences. So `NewXSeries` sharing the caller's slice, `Subset` returning a view, `Concat` appending into spare capacity, and `Clone` in `dataframe.go` sharing series between frames are not modelled.
- `Subset`: Go allows `end` up to the slice's capacity; the model requires `end <= Size`.
- `fmt.Sprint` is a parameter (`sprint`) of `Elements.String` and `Iterator.NextString`; its output format is not modelled.
- `Elements.Dynamic`: dynamic types other than `int`, `float64` and `string` are one opaque case (`GoOther`).
- `DataFrames.Columns`: Go's map iteration order is random. The result is specified as a multiset of descriptors, not a sequence.
- `PandasFrames.Columns`: the order is an arbitrary order of the distinct keys.
- `IntSeries.Sort`: Go calls the library's `sort.Slice`. The model uses an insertion sort. `AscendingPermutationIsUnique` shows that every correct sort gives the same answer.
- `DataFrames.NewDataFrame`: on error the model returns `Zero`. Go returns `DataFrame{}` with nil maps, which no operation of `dataframe.go` can tell apart from empty maps. On success with no columns, the frame is also `Zero`, where Go has allocated empty maps; `require.Empty` in the tests can tell these apart.
- `PandasFrames.CopyColumns`: from an allocated start, the copied frame is stated only for source frames that meet `dataframe.go`'s invariant. On other frames the getter can panic part-way through.
- `PandasFrames.SetStringColumnIntended`, `SetIntColumnIntended` and `SetFloatColumnIntended`: a new name gets a series but no descriptor, as in the source's setters. Their results are stated only for receivers that meet `dataframe.go`'s invariant.
- `PandasFrames`: the panic values are `errors.Errorf` errors; the model keeps only their messages.
- `Size`, `Index`, `Elements.New` and `Iterator.Error` are plain definitions without a contract of their own.

## Findings

| source | as written | input that shows it | evidently intended | confidence | as-written member | corrected member |
|---|---|---|---|---|---|---|
| pandas/IntSeries.go:57-65 | `Max` starts from `(0, 0)` | `[-5, -1, -9]` gives `(0, 0)` | `(1, -1)`, the first maximum | not executed | IntSeries.MaxMissesNegatives | SeriesCore.FirstBest |
| pandas/IntSeries.go:67-75 | `Min` starts from `(0, 0)` | `[5, 1, 9]` gives `(0, 0)` | `(1, 1)`, the first minimum | not executed | IntSeries.MinMissesPositives | SeriesCore.FirstBest |
| FloatSeries.go:57-65 | `Max` starts from `(0, 0)` | `[-5.0, -1.0, -9.0]` gives `(0, 0)` | `(1, -1.0)` | not executed | FloatSeries.MaxMissesNegatives | SeriesCore.FirstBest |
| FloatSeries.go:67-75 | `Min` starts from `(0, 0)` | `[5.0, 1.0, 9.0]` gives `(0, 0)` | `(1, 1.0)` | not executed | FloatSeries.MinMissesPositives | SeriesCore.FirstBest |
| pandas/IntSeries.go:13-17 | `Append` returns the receiver | `[1]` appended with `2` stays `[1]` | `[1, 2]` | not executed | IntSeries.AppendDropsElements | SeriesCore.AppendCopy |
| FloatSeries.go:13-17 | `Append` returns the receiver | `[1.0]` appended with `2.0` stays `[1.0]` | `[1.0, 2.0]` | not executed | FloatSeries.AppendDropsElements | SeriesCore.AppendCopy |
| element/iterator.go:17-19 | `HasNext` tests `err != nil` | a fresh iterator over one value: `HasNext()` is false | true while no error and an element remains | not executed | Iterators.FreshIteratorDisagrees | Iterators.Iterator.HasNextIntended |
| pandas/DataFrame.go:41-61 | the loop writes into the nil maps of `DataFrame{}` | `NewDataFrame(NewStringColumn("col1"))` panics | a frame with that column and an empty series of its type | not executed | PandasFrames.NewDataFrame | PandasFrames.NewDataFrameIntended |
| pandas/DataFrame.go:107-121 | the named result's maps are nil | `Clone` of any frame with a column panics | an allocated frame with the same contents | not executed | PandasFrames.Clone | PandasFrames.CloneIntended |
| pandas/DataFrame.go:123-139 | the setters store into the clone and return the receiver | `SetStringColumn("a", s)` never yields a frame holding `s` | the allocated clone holding `s` under `"a"` in its string map, with the other maps unchanged | not executed | PandasFrames.SetStringColumn | PandasFrames.SetStringColumnIntended |
