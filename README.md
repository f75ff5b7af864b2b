# unsafe-jq query evaluator, modelled in Dafny

The repository has one function, `Query` (jq.go). It takes a dot-separated path
such as `data.[].meals.[].time` and a value decoded from JSON: nil, a scalar, a
slice or a map from string keys. It walks the path through the value and
returns the ordered list of matched values, or an error.

- A `[]` segment iterates over a slice. For each element it rebuilds the rest
  of the path with `strings.Join`, queries that element and appends the
  element's results. The first error aborts the whole query.
- Any other segment is a map key. A missing key gives nil. A key looked up in
  nil is the error "Nil data".
- A `[]` segment on something that is not a slice is the error "Can not index
  over non-slice".

The model has four modules:

- `Paths` (paths.dfy) defines Go's `strings.Split` and `strings.Join` with the
  separator `.`. It proves the two round trips and that the rebuilt tail of a
  path is shorter than the path.
- `Tree` (json.dfy) defines the decoded value as the datatype `Json`. `Lookup`
  is Go's map index, which gives nil for a missing key.
- `Jq` (jq.dfy) holds the evaluator.
  - `Query` is the Go function as written: a recursive method whose `[]` branch
    is a `while` loop appending to an accumulator.
  - `Query` is proved equal to `Eval`. `Eval` is the functional meaning of a
    query: split the path once, then evaluate the segment list with
    `EvalParts`/`EvalEach`.
  - The lemmas state what a query yields for each kind of segment, and how
    errors and panics propagate.
- `Samples` (samples.dfy) rebuilds the test file's sample document by hand and
  works out the test queries on it. Each query is first proved on the path
  built from its segments and separators (a `...Steps` lemma). The result is then
  restated on the test's own query string.

Go panics are not errors in this model. Two inputs make the Go code panic
instead of returning an error:

- `[]` applied to nil. `reflect.TypeOf(nil)` is nil, and calling `Kind()` on it
  panics.
- A key looked up in a value that is neither nil nor a map. The type assertion
  to `map[string]interface{}` fails.

`Outcome` has a third constructor, `Panic(cause)`, for these two cases. It is
kept apart from `Err(error)`, which stands for the errors the function
returns. Like an error, a panic in a sub-query ends the whole query with no
results.

A `[]` at the end of a path (`data.[]`) is kept as the code has it. The tail
rebuilt from no segments is the empty string, and `Split("")` is `[""]`. So
every element gets a lookup of the key `""`, which on a map is usually nil. The
element itself is not returned. `Rest` states this, and `TrailingWildcard` and
`Samples.TrailingWildcardOnCats` prove it.

The test at jq_test.go:148 calls a three-argument `Query(..., Options{OptionVarIndexAt: 1})`
and expects `[15]`. jq.go does not define that function or `Options`. Under
jq.go, `[i]` is an ordinary key, so `data.[i].attributes.whiskers` panics on
the sample document (`Samples.IndexMarkerIsAKey`).

## Model

| member | source | states |
|---|---|---|
| `Paths.Split` | jq.go:14 | splitting on `.` always gives at least one segment, and no segment contains `.` |
| `Paths.JoinSplit` | jq.go:14 | joining the segments of a path with `.` gives back the path |
| `Paths.SplitJoin` | jq.go:38 | splitting the joined tail gives back the tail segments, if there is at least one and none contains `.` |
| `Paths.SplitFirst` | jq.go:14 | a dot-free word, a dot, then a rest: the word is the first segment and the rest splits on its own |
| `Paths.SplitWord` | jq.go:14 | a string without `.` is one segment |
| `Paths.TailShorter` | jq.go:21 | the tail rebuilt by `strings.Join(parts[1:], ".")` is strictly shorter than a non-empty query, so the recursion ends |
| `Jq.RestIsResplitTail` | jq.go:21 | re-splitting the rebuilt tail gives the remaining segments, or `[""]` when no segment follows |
| `Jq.Query` | jq.go:13-43 | the method with its accumulator loop returns exactly `Eval(query, data)`: results, error or panic |
| `Jq.EachFailureSticks` | jq.go:21-24 | once an element's sub-query fails, the iteration's outcome is that failure, whatever the later elements hold |
| `Jq.EachOkIff` | jq.go:20-27 | the `[]` loop succeeds if and only if the sub-query succeeds on every element |
| `Jq.EachFirstFailure` | jq.go:21-24 | the loop's outcome is the failure of the first failing element, with no partial results |
| `Jq.EachConcat` | jq.go:20-29 | when every element succeeds, the results are the elements' results concatenated in element order |
| `Jq.EachOnePerElement` | jq.go:20-29 | when each element yields one value, the loop yields one value per element, the i-th from element i |
| `Jq.LiteralPathSingleResult` | jq.go:36-41 | a path without `[]` that succeeds yields exactly one value |
| `Jq.NonEmptyResults` | jq.go:15-42 | on a tree in which every slice is non-empty, a successful query yields at least one value: an empty result only comes from `[]` over an empty slice |
| `Jq.NonEmptyEach` | jq.go:20-29 | `[]` over a non-empty slice of such trees, when it succeeds, yields at least one value |
| `Jq.LiteralLeaf` | jq.go:36-42 | a single key on a map yields exactly the stored value, or nil for a missing key |
| `Jq.LiteralStep` | jq.go:32-38 | a key followed by more path: nil gives "Nil data", a map goes on with the rest of the path on the looked-up value (nil if missing), anything else panics |
| `Jq.WildcardSplits` | jq.go:14-21 | the path `[].rest` splits into `[]` and the segments of `rest`, which the loop applies to each element |
| `Jq.WildcardConcat` | jq.go:15-29 | `[].rest` on a slice succeeds if and only if `rest` succeeds on every element, and then yields their results concatenated in order |
| `Jq.WildcardFirstFailure` | jq.go:20-24 | `[].rest` on a slice ends with the outcome of the first element on which `rest` fails |
| `Jq.WildcardEmpty` | jq.go:20-29 | `[]` on an empty slice yields no results and no error |
| `Jq.TrailingWildcard` | jq.go:21 | a path ending in `[]` on a slice of maps yields, for each element, the value under the key `""` |
| `Jq.WildcardOnNonSlice` | jq.go:15-18 | `[]` on a scalar or map is the non-slice error; on nil it panics |
| `Jq.LiteralOnNonMap` | jq.go:32-36 | a key on nil is "Nil data"; on a scalar or slice it panics |
| `Samples.Cats` | jq_test.go:73-87 | `cats` on the sample document yields `[2]` |
| `Samples.MetaResponse` | jq_test.go:98-112 | `meta.response` yields `[200]` |
| `Samples.Whiskers` | jq_test.go:123-137 | `data.[].attributes.whiskers` yields `[12, 15]` in document order |
| `Samples.Friends` | jq_test.go:173-192 | `data.[].friends` yields two results, each a whole friends slice |
| `Samples.AllMealTimes` | jq_test.go:203-218 | `data.[].meals.[].time` yields the four times in row-major order |
| `Samples.IndexMarkerIsAKey` | jq_test.go:148-162 | under jq.go, `data.[i].attributes.whiskers` treats `[i]` as a key and panics on the slice |
| `Samples.TrailingWildcardOnCats` | jq.go:21 | `data.[]` yields nil for each cat, from looking up the key `""` |
| `Samples.EmptyErrors` | jq_test.go:59 | `[]` over the empty `meta.errors` slice yields no results and no error |
| `Samples.MissingThenKey` | jq.go:32-34 | a missing key gives nil, and a further key on it is the error whose message is "Nil data" |
| `Samples.WildcardOnNumber` | jq.go:15-18 | `cats.[].x` is the error whose message is "Can not index over non-slice" |

## Left out

- JSON decoding (jq_test.go:66-67) is not modelled. The sample document is built by hand as a `Json` value.
- Numbers are `int` rather than `float64`. The evaluator never inspects a scalar.
- `reflect` is reduced to "is a `JArr`". A slice of another Go type would pass the `Kind` check at jq.go:16 and then panic at jq.go:20. JSON decoding never produces one, so the model has no such value.
- Indexed selection `[i]` and `Options`/`OptionVarIndexAt` are left out. jq.go does not define them; only the test at jq_test.go:148 uses them.
- A Go panic is the outcome `Panic(cause)`, not an unwinding of the stack. Nothing in jq.go recovers from one.
- `Jq.Query` returns one `Outcome` instead of Go's `(results, err)` pair. `Ok(rs)` stands for `(rs, nil)` and `Err(e)` for `(nil, e)`. The error text is `Message(e)`.
- Go's distinction between a nil slice and an empty one (`[]` over an empty slice returns nil results) is not modelled; both are `[]`.
- Determinism and statelessness hold by construction, since every member is a function of its arguments. No lemma states them.
