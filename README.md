# CSV import helpers for datasets

This project models the CSV preview and import helpers of the dataset feature
(`web/src/features/datasets/lib/csvHelpers.ts`) and proves properties of the
model. It covers four parts:

- **Value classifier** (`inferTypeFromValue`). Tags one cell as `null`,
  `array`, `json`, `number`, `boolean`, `string` or `unknown`.
- **Column type aggregator** (`inferColumnType`). Reduces a column's tags to
  one type. Nulls are tolerated. Two different non-null tags give `mixed`.
  An empty column gives `unknown`.
- **Row accumulator** (the `data` and `end` handlers of `createParser`, plus
  `getParserConfig`). Row 0 becomes the trimmed header. Data rows up to an
  optional cap are trimmed and kept as preview rows. With sample collection,
  each kept field is appended to the bucket of its column's header name.
  At the end, the handler either builds a `CsvPreviewResult` or rejects with
  "CSV file is empty".
- **Coercion helpers** (`parseValue`, `parseColumns`). They turn cells into
  JSON values, or several cells of a row into a keyed record.

Files and modules:

| file | module | contents |
|---|---|---|
| `wrappers.dfy` | `Wrappers` | `Option` and `Result` |
| `text.dfy` | `Text` | `String.prototype.trim` over the ECMAScript white space and line terminators; the lower-casing that comparisons with "null", "true" and "false" need |
| `json.dfy` | `Json` | the values `JSON.parse` yields; types standing for `JSON.parse` and for `Number` with `isNaN` |
| `inference.dfy` | `TypeInference` | classifier and aggregator |
| `coercion.dfy` | `Coercion` | `parseValue` and `parseColumns` |
| `parser_spec.dfy` | `ParserSpec` | the handlers as functions of the rows delivered, and what they mean |
| `parser.dfy` | `CsvParser` | the handlers as a class whose fields are updated in place, proved to follow `ParserSpec` |
| `scenarios.dfy` | `Scenarios` | whole-input examples |

Collaborators the code calls into are function-typed parameters:

- `JSON.parse` is a `JsonParser`, from text to `Option<JsonVal>`. `None`
  stands for a thrown `SyntaxError`.
- `Number(value)` together with `isNaN` is a `NumberParser`, from text to
  `Option<real>`. `None` stands for NaN.
- The `csv-parse` tokenizer is a `TokenizerOutput`: either every row
  followed by `end` (`Finished`), or some rows followed by an `error` event
  with a message (`Aborted`).
- The caller's `onHeader` and `onRow` hooks are flags saying whether each is
  present. Each invocation is recorded as a `HookCall`, with its arguments,
  in the order the handler makes them.

`Map` keys are `Option<string>`. `None` is the JavaScript `undefined` that
`headerRow[colIndex]` reads for a field past the end of the header. The code
does push such fields into an `undefined` bucket, and the `data` handler reads
that bucket on each push, but the `end` handler never reads it, so it never
reaches the result.

The code is followed everywhere. Where the code's behaviour is easy to
misread, lemmas pin it down:

- A file with a header row and no data rows is **not** rejected. The `end`
  handler rejects only when `rowCount` is 0, so such a file resolves with the
  header's columns and no preview rows (`Scenarios.HeaderOnlyIsNotEmpty`).
- Duplicate header names do not overwrite each other's bucket. They share
  one bucket: a row appends the fields of all columns under that name, in
  column order (`ParserSpec.PicksIsOrderedFilter`), and both columns report
  that one bucket. So a single data row under a doubled name already leaves
  two samples, more than there are data rows
  (`ParserSpec.DuplicateHeaderSharesBucket`). With distinct names, a bucket
  never holds more samples than the preview has rows
  (`ParserSpec.PreviewIsBounded`).
- `typeof null` is "object". So text that `JSON.parse` reads as `null`, but
  that is neither blank nor a case variant of "null" (for example " null"),
  is tagged `json` (`TypeInference.PaddedNullIsJson`). In a preview this
  cannot happen: samples reach the classifier already trimmed, and `trim`
  removes all of JSON's white space (space, tab, line feed, carriage return).

## Model

| member | source | states |
|---|---|---|
| Text.LeadingWhitespaceIsWhitespace | web/src/features/datasets/lib/csvHelpers.ts:74 | the prefix that `trim` removes in front consists only of white space or line terminators |
| Text.TrailingWhitespaceIsWhitespace | web/src/features/datasets/lib/csvHelpers.ts:74 | the suffix that `trim` removes at the end consists only of white space or line terminators |
| Text.Trim | web/src/features/datasets/lib/csvHelpers.ts:74 | definition of `value.trim()`; its meaning is proved by `TrimIsInfix` and `TrimCutsWhitespace` |
| Text.TrimRow | web/src/features/datasets/lib/csvHelpers.ts:83 | each field trimmed at its own position in a new row of the same length |
| Text.EqualsIgnoreCase | web/src/features/datasets/lib/csvHelpers.ts:193 | definition of `value.toLowerCase() === word` for the lower-case keywords compared; exact for them, as the comment on `Lower` explains |
| Text.TrimIsInfix | web/src/features/datasets/lib/csvHelpers.ts:74 | a trimmed field is the contiguous piece of the raw field that starts after its leading white space |
| Text.TrimCutsWhitespace | web/src/features/datasets/lib/csvHelpers.ts:74 | only white space is cut on either side of a trimmed field, and the result neither starts nor ends with white space |
| Text.TrimUnchanged | web/src/features/datasets/lib/csvHelpers.ts:74 | a field with no white space at either end is its own trim |
| Text.TrimRowUnchanged | web/src/features/datasets/lib/csvHelpers.ts:83 | a row whose fields have no white space at their ends is left as it is by sanitizing |
| Text.TrimIdempotent | web/src/features/datasets/lib/csvHelpers.ts:83 | trimming an already trimmed field changes nothing |
| Text.TrimRowIdempotent | web/src/features/datasets/lib/csvHelpers.ts:83 | trimming an already sanitized row changes nothing |
| TypeInference.IsNullText | web/src/features/datasets/lib/csvHelpers.ts:193 | definition of `!value \|\| value.toLowerCase() === "null"`; its meaning is proved by `InferTypeFromValue` and `ParseValue` |
| TypeInference.Tags | web/src/features/datasets/lib/csvHelpers.ts:170 | the tag of each sample, in order, one per sample |
| TypeInference.TypeOfJson | web/src/features/datasets/lib/csvHelpers.ts:197-199 | a parsed value is `array` exactly when it is an array; `json` exactly when it is an object or null; otherwise `number`, `boolean` or `string` exactly by its kind; never `null`, `unknown` or `mixed` |
| TypeInference.InferTypeFromValue | web/src/features/datasets/lib/csvHelpers.ts:192-204 | the tag is `null` exactly for blank text or a case variant of "null", whatever the parser says; for other text it is `unknown` exactly when parsing fails (never `string`), and otherwise the tag of the parsed value; never `mixed` |
| TypeInference.Distinct | web/src/features/datasets/lib/csvHelpers.ts:170 | the set of tags holds exactly the tags of the samples, each once, no more of them than samples, and its first element is the first sample's tag |
| TypeInference.AggregateTags | web/src/features/datasets/lib/csvHelpers.ts:166-190 | an empty column is `unknown`; a non-empty column's type is `mixed` or one of its own tags |
| TypeInference.InferColumnType | web/src/features/datasets/lib/csvHelpers.ts:166-170 | no samples give `unknown`; otherwise the type is `mixed` or the tag of some sample |
| TypeInference.NoConflictWhenHomogeneous | web/src/features/datasets/lib/csvHelpers.ts:173-186 | when the set has one tag, or null and one other, no two samples carry different non-null tags |
| TypeInference.ConflictWhenHeterogeneous | web/src/features/datasets/lib/csvHelpers.ts:188-189 | in every other case two samples do carry different non-null tags |
| TypeInference.AggregateTagsRule | web/src/features/datasets/lib/csvHelpers.ts:166-190 | for a non-empty column: `null` iff every tag is null; `mixed` iff two non-null tags differ; otherwise the one non-null tag present, which every tag equals or is null |
| TypeInference.InferColumnTypeRule | web/src/features/datasets/lib/csvHelpers.ts:166-190 | the same rule stated on samples: `null` iff every sample is blank or "null" text; `mixed` iff two non-null samples are tagged differently; otherwise a tag that some sample has and every non-null sample shares |
| TypeInference.ClassificationExamples | web/src/features/datasets/lib/csvHelpers.ts:192-204 | blank and "NULL" are null; "42", "true", "[1,2]" and an object literal are number, boolean, array and json; an unparsable bare word is unknown; a quoted word is string |
| TypeInference.PaddedNullIsJson | web/src/features/datasets/lib/csvHelpers.ts:193-198 | text that parses to null but is not null text is tagged `json` |
| TypeInference.NumbersAreNumber | web/src/features/datasets/lib/csvHelpers.ts:184-186 | the column 1, 2, 3 is `number` |
| TypeInference.BlankAmongNumbersIsNumber | web/src/features/datasets/lib/csvHelpers.ts:178-181 | the column 1, (blank), 3 is `number` |
| TypeInference.NumberBesideBooleanIsMixed | web/src/features/datasets/lib/csvHelpers.ts:188-189 | the column 1, true is `mixed` |
| TypeInference.NullsAreNull | web/src/features/datasets/lib/csvHelpers.ts:173-175 | the column null, NULL is `null`, whatever the parser would return for them |
| Coercion.ParseValue | web/src/features/datasets/lib/csvHelpers.ts:207-217 | a successful parse is returned as is; after a failed parse, the result is null iff the text is blank or "null", `true` iff it is "true" in any case, and `false` iff it is "false" in any case; a number it returns is the one `Number(value)` gives |
| Coercion.FallbackKeepsText | web/src/features/datasets/lib/csvHelpers.ts:210-216 | after a failed parse, the result is a number iff the text is neither null, true nor false text and `Number` gives a number, and then it is the number `Number(value)`; otherwise it is a string, and then it is the original text unchanged |
| Coercion.CoercionAgreesWithClassifier | web/src/features/datasets/lib/csvHelpers.ts:192-217 | text tagged `null` coerces to null; text tagged `unknown` coerces to a boolean, a number or itself; any other tag is the tag of the coerced value |
| Coercion.ParseValueExamples | web/src/features/datasets/lib/csvHelpers.ts:207-217 | "true" gives true, an unparsable word gives itself, blank gives null, and "3.14" gives 3.14 |
| Coercion.Cell | web/src/features/datasets/lib/csvHelpers.ts:227 | a cell exists exactly when the name is in the header map and its index is inside the row; the cell is the field at that index |
| Coercion.ParseCell | web/src/features/datasets/lib/csvHelpers.ts:227 | definition of `parseValue(row[headerMap.get(col)!])`, failing where the cell is `undefined`; its meaning is proved by `Cell` and `ParseColumns` |
| Coercion.ParseColumns | web/src/features/datasets/lib/csvHelpers.ts:220-232 | no names give null; one name gives its coerced cell; with names, the call succeeds iff every name has a cell; a record from two or more names has exactly those names as keys |
| Coercion.RecordFieldsAreSingleColumns | web/src/features/datasets/lib/csvHelpers.ts:229-231 | each field of the record equals what parsing that one column alone returns |
| ParserSpec.HasCap | web/src/features/datasets/lib/csvHelpers.ts:51 | definition of a truthy `previewRows` (present and not 0); its use is proved by `GetParserConfig` and `StoredCount` |
| ParserSpec.KeepsRow | web/src/features/datasets/lib/csvHelpers.ts:81 | definition of the guard on a data row's index; its meaning is proved by `StoredCountStep` and `StoredRowsStep` |
| ParserSpec.GetParserConfig | web/src/features/datasets/lib/csvHelpers.ts:47-54 | empty lines skipped, fields trimmed, BOM stripped, `"` as quote and escape; a row limit exists iff the cap is truthy, and then it is the cap plus one |
| ParserSpec.ClientDefaultOptions | web/src/features/datasets/lib/csvHelpers.ts:132-135 | the client's defaults cap the preview at 10 rows, collect samples and have no hooks |
| ParserSpec.ServerOptions | web/src/features/datasets/lib/csvHelpers.ts:155 | server options never carry a cap |
| ParserSpec.Bucket | web/src/features/datasets/lib/csvHelpers.ts:89 | definition of `columnSamples.get(key) ?? []`; its meaning is proved by `AddSamples`, `DataStepBucket` and `EndStep` |
| ParserSpec.KeyAt | web/src/features/datasets/lib/csvHelpers.ts:88 | definition of `headerRow[colIndex]`, `None` past the header's end; its meaning is proved by `PicksOfUniqueHeader` and `AddSamples` |
| ParserSpec.ResetBuckets | web/src/features/datasets/lib/csvHelpers.ts:76 | every header name gets an empty bucket; other buckets are kept unchanged |
| ParserSpec.Picks | web/src/features/datasets/lib/csvHelpers.ts:87-92 | every field picked for a key sits at a column whose header reads that key, and every such field is picked; no more picks than fields |
| ParserSpec.KeyColumns | web/src/features/datasets/lib/csvHelpers.ts:87-89 | the columns of a row whose header name (or `undefined` past the header) is the key, each once and in increasing order |
| ParserSpec.PicksIsOrderedFilter | web/src/features/datasets/lib/csvHelpers.ts:87-92 | the fields a row appends to a key's bucket are, in order and with their multiplicity, the fields at the key's columns, repeated header names included |
| ParserSpec.AddSamples | web/src/features/datasets/lib/csvHelpers.ts:87-92 | no bucket disappears, and every bucket grows at its end by exactly the fields whose column's header name is its key |
| ParserSpec.AddSamplesSnoc | web/src/features/datasets/lib/csvHelpers.ts:87-92 | one more field extends only the bucket of that field's header name, by that field |
| ParserSpec.ResetBucketsSnoc | web/src/features/datasets/lib/csvHelpers.ts:76 | one more header name resets only that name's bucket |
| ParserSpec.PicksOfUniqueHeader | web/src/features/datasets/lib/csvHelpers.ts:88-91 | with distinct header names, a row adds its field j to column j's bucket, or nothing if the row is shorter |
| ParserSpec.HeaderStep | web/src/features/datasets/lib/csvHelpers.ts:72-80 | definition of the `data` handler on row 0; its meaning is proved by `RunCountsRows`, `HeaderRowGivesEmptyBuckets` and `RunHookCalls` |
| ParserSpec.RowStep | web/src/features/datasets/lib/csvHelpers.ts:81-96 | definition of the `data` handler on a later row; its meaning is proved by `RunPreviewRows`, `DataStepBucket` and `RunHookCalls` |
| ParserSpec.DataStep | web/src/features/datasets/lib/csvHelpers.ts:70-98 | definition of the `data` handler, by the row's index; its meaning is proved by `RunCountsRows`, `RunPreviewRows`, `RunSamplesAreColumns` and `RunHookCalls` |
| ParserSpec.Run | web/src/features/datasets/lib/csvHelpers.ts:70-98 | definition of the state after the `data` handler has seen each row in order; its meaning is proved by `RunCountsRows`, `RunPreviewRows`, `RunSamplesAreColumns`, `RunHookCalls` and `BucketsOnlyGrow` |
| ParserSpec.StoredCount | web/src/features/datasets/lib/csvHelpers.ts:81 | at most the number of data rows are kept; all of them with no cap; at most the cap with a positive cap; none with a negative cap |
| ParserSpec.StoredRows | web/src/features/datasets/lib/csvHelpers.ts:81-84 | the stored rows are data rows 1, 2, ..., trimmed, as many as `StoredCount` allows |
| ParserSpec.StoredCountStep | web/src/features/datasets/lib/csvHelpers.ts:81 | a later row raises the stored count by one exactly when the cap admits its index |
| ParserSpec.StoredRowsStep | web/src/features/datasets/lib/csvHelpers.ts:81-84 | a later row is appended to the stored rows, trimmed, exactly when the cap admits its index |
| ParserSpec.RowHooksStep | web/src/features/datasets/lib/csvHelpers.ts:94-96 | a later row adds an `onRow` call with its index exactly when it is stored |
| ParserSpec.ExpectedHooksStep | web/src/features/datasets/lib/csvHelpers.ts:94-96 | a later row adds exactly one `onRow` call, with the row, the header and its index, when the hook is present and the row is stored, and none otherwise |
| ParserSpec.RunCountsRows | web/src/features/datasets/lib/csvHelpers.ts:71-74 | every delivered row is counted, and the header is the first row, trimmed |
| ParserSpec.RunPreviewRows | web/src/features/datasets/lib/csvHelpers.ts:71-84 | the preview rows are exactly the stored data rows in arrival order; the header row is never among them |
| ParserSpec.RunHookCalls | web/src/features/datasets/lib/csvHelpers.ts:78-96 | `onHeader` is called once with the header, then `onRow` once per stored row with the row, the header and the row's index, in order |
| ParserSpec.RunWithoutSamples | web/src/features/datasets/lib/csvHelpers.ts:75-86 | without sample collection no bucket is ever created |
| ParserSpec.HeaderRowGivesEmptyBuckets | web/src/features/datasets/lib/csvHelpers.ts:75-77 | the header row contributes no samples: afterwards there is exactly one empty bucket per header name |
| ParserSpec.DataStepBucket | web/src/features/datasets/lib/csvHelpers.ts:86-92 | a data row appends to a bucket exactly the fields under that bucket's name, and only when samples are collected and the row is stored |
| ParserSpec.ColumnValuesStep | web/src/features/datasets/lib/csvHelpers.ts:83-92 | the column values of the stored rows grow by a new row's field exactly when that row is stored and has the field |
| ParserSpec.RunSamplesStep | web/src/features/datasets/lib/csvHelpers.ts:86-92 | one more row preserves the equality between a bucket and its column of stored rows |
| ParserSpec.RunSamplesAreColumns | web/src/features/datasets/lib/csvHelpers.ts:86-92 | with distinct header names, column j's bucket is field j of each stored row that has one, in order |
| ParserSpec.PicksOfRepeatedName | web/src/features/datasets/lib/csvHelpers.ts:88-91 | under a header with the same name twice, both fields of a row land in that name's bucket |
| ParserSpec.DuplicateHeaderSharesBucket | web/src/features/datasets/lib/csvHelpers.ts:76-91 | with a repeated header name, one stored row leaves two samples in the shared bucket |
| ParserSpec.BucketsOnlyGrow | web/src/features/datasets/lib/csvHelpers.ts:86-92 | after any further row, every bucket still exists and begins with its earlier contents |
| ParserSpec.EndStep | web/src/features/datasets/lib/csvHelpers.ts:100-119 | rejects with "CSV file is empty" iff no row was counted; otherwise one column per header name in header order, `totalColumns` equal to the header length, previews as accumulated; with samples, each column gets its bucket and that bucket's inferred type; without samples, no samples and `string` |
| ParserSpec.TokenizerError | web/src/features/datasets/lib/csvHelpers.ts:123 | definition of the rejection message for a tokenizer error; its meaning is proved by `TokenizerErrorRejects` |
| ParserSpec.Outcome | web/src/features/datasets/lib/csvHelpers.ts:100-124 | definition of how one call settles on `end` or `error`; its meaning is proved by `PreviewOfRows`, `TokenizerErrorRejects` and `CsvParser.Ingest` |
| ParserSpec.PreviewOfRows | web/src/features/datasets/lib/csvHelpers.ts:70-119 | an input is rejected iff it has no rows; otherwise the trimmed first row names the columns and fixes their number, and the previews are the stored rows; with samples and distinct names, each column's samples are its column of the previews and its type is inferred from them |
| ParserSpec.PreviewIsBounded | web/src/features/datasets/lib/csvHelpers.ts:81-92 | the previews number at most the data rows, at most a positive cap, none under a negative cap, and all data rows with no cap; with distinct names, no column holds more samples than there are previews |
| ParserSpec.UncappedExpectedHooks | web/src/features/datasets/lib/csvHelpers.ts:78-96 | without a cap the expected trace is `onHeader` with the header when present, then for each data row i an `onRow` call with row i trimmed, the header and index i |
| ParserSpec.UncappedHookCalls | web/src/features/datasets/lib/csvHelpers.ts:78-96 | the recorded trace of an uncapped run is that trace |
| ParserSpec.ServerKeepsEveryRow | web/src/features/datasets/lib/csvHelpers.ts:153-163 | the server mode keeps every data row, trimmed, in order; it calls `onHeader` first when present and then `onRow` for every data row i with row i trimmed, the header and index i |
| ParserSpec.ClientPreviewHasAtMostTenRows | web/src/features/datasets/lib/csvHelpers.ts:130-135 | the client mode shows at most 10 data rows by default |
| ParserSpec.RowsPastLimitOnlyCount | web/src/features/datasets/lib/csvHelpers.ts:51-81 | with a positive cap, rows beyond the tokenizer's limit of cap plus one change nothing but the row count |
| ParserSpec.TokenizerLimitKeepsResult | web/src/features/datasets/lib/csvHelpers.ts:51-81 | with a positive cap, the tokenizer's limit leaves the result and the hook calls as they would be without it |
| ParserSpec.TokenizerErrorRejects | web/src/features/datasets/lib/csvHelpers.ts:122-124 | a tokenizer error rejects with "Failed to parse CSV: " followed by its message, whatever rows came before |
| CsvParser.Parser.constructor | web/src/features/datasets/lib/csvHelpers.ts:63-66 | a new parser has seen no row, holds the initial state and is valid |
| CsvParser.Parser.ResetSamples | web/src/features/datasets/lib/csvHelpers.ts:76 | the in-place loop leaves the buckets equal to `ResetBuckets` of the old buckets |
| CsvParser.Parser.AppendSamples | web/src/features/datasets/lib/csvHelpers.ts:87-92 | the in-place loop leaves the buckets equal to `AddSamples` of the old buckets |
| CsvParser.Parser.TakeHeader | web/src/features/datasets/lib/csvHelpers.ts:72-80 | handling row 0 takes the object's state to `HeaderStep` of the old state |
| CsvParser.Parser.TakeDataRow | web/src/features/datasets/lib/csvHelpers.ts:81-96 | handling a later row takes the object's state to `RowStep` of the old state |
| CsvParser.Parser.OnData | web/src/features/datasets/lib/csvHelpers.ts:70-98 | each row keeps the fields equal to `Run` of the rows seen, counts the row, and only grows buckets at their ends |
| CsvParser.Parser.OnEnd | web/src/features/datasets/lib/csvHelpers.ts:100-120 | the result is `EndStep` of the current state, and a rejection exactly when no row was seen |
| CsvParser.Ingest | web/src/features/datasets/lib/csvHelpers.ts:57-127 | feeding a fresh parser the tokenizer's rows yields `Outcome`; it rejects exactly on a tokenizer error or an input without rows; the hook calls are the expected ones |
| Scenarios.HeaderOnlyIsNotEmpty | web/src/features/datasets/lib/csvHelpers.ts:100-119 | a header with no data rows resolves, with no previews and the header's number of columns |
| Scenarios.NoRowsIsEmpty | web/src/features/datasets/lib/csvHelpers.ts:101-104 | an input without rows rejects with "CSV file is empty" |
| Scenarios.IdValueRowsAreTrimmed | web/src/features/datasets/lib/csvHelpers.ts:83 | the rows of the id,value example are left as they are by sanitizing |
| Scenarios.StoredTrimmedRows | web/src/features/datasets/lib/csvHelpers.ts:81-84 | when the cap admits all three data rows of an already trimmed four-row input, the previews are exactly those rows |
| Scenarios.IdValueTypes | web/src/features/datasets/lib/csvHelpers.ts:166-190 | the column 1, 2, 3 is `number`; the column 42, (blank), true is `mixed` |
| Scenarios.IdValueScenario | web/src/features/datasets/lib/csvHelpers.ts:70-119 | under the client defaults, id,value / 1,42 / 2, / 3,true resolves with two columns, id as `number`, value as `mixed`, and three previews |

## Left out

- `parseCsvClient` and `parseCsvServer` reading their input: the `FileReader`, the 64 KiB `Blob` slice, text decoding and the "Failed to read file" rejection are I/O. `PREVIEW_FILE_SIZE_BYTES` is kept as a constant only. The model starts at the rows the tokenizer delivers.
- The `csv-parse` tokenizer: quoting, escaping, BOM removal, empty-line skipping and its own trimming belong to a foreign library. Its output is a `TokenizerOutput`. What it does with a limit `to` of zero or less, as a negative cap produces, is not modelled.
- `JSON.parse` grammar: a foreign function, so it is the `JsonParser` parameter. Lemmas name what it returns for their inputs as hypotheses.
- `Number` and `isNaN`: floating point, so they are the `NumberParser` parameter, with NaN as `None`. Numbers are `real`, which cannot hold Infinity (`Number("Infinity")`, `JSON.parse("1e400")`) or `-0`.
- `toLowerCase`: `Text.Lower` lower-cases ASCII letters only. The code only compares lower-cased text with "null", "true" and "false". The only non-ASCII code points whose lower case contains an ASCII letter are U+212A (to `k`) and U+0130 (to `i` plus a combining dot), and neither letter occurs in those words, so the comparisons are exact.
- Hook scheduling: `onHeader` and `onRow` are recorded as a trace of calls in order. Their own effects and failures are not modelled, and neither is the timing of their promises. The `data` handler awaits each hook inside its own invocation, but the event emitter drops the handler's promise. So the code does not hold back the next row until a hook settles, and the model does not claim it does.
- `CsvParser.Ingest`: does not model an `error` that the tokenizer emits after `end`, nor events arriving once the promise has settled. It models one settling per call.
- `Coercion.ParseColumns`: states the record's keys as a set. The order of keys in `Object.fromEntries` is not modelled. With a repeated name the last entry wins, and it is the same value.
- `Coercion.ParseColumns`: a missing name, or an index outside the row, makes `parseValue` throw a `TypeError` on `undefined`. This is modelled as a `Failure` carrying that message. Fractional or non-numeric indices in the header map are not modelled (the map's values are `int`).
- `ParserSpec.ParseOptions`: `previewRows` is an integer. A fractional or NaN cap is not modelled.
- The `Prisma.JsonValue` type is `Json.JsonVal`.
