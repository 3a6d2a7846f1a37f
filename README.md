# louis-migrate-yaml decoder, modelled in Dafny

louis-migrate-yaml reads a liblouis YAML test file through the libyaml event
parser and rebuilds it as one typed `TestSuite` (a display table, a table
described by its metadata, a test mode and a list of tests), which it then
serializes again. This project models the decoding half of `src/main.rs`:
the primitive readers (`read_stream_start` … `read_scalar`), the field
decoders (`parse_table`, `parse_flags`, `read_xfail_value`,
`parse_xfail_value`, `parse_test`, `parse_tests`) and the top-level key loop
of `main`, together with the typed suite model (`src/main.rs:26-87`) and the field-omission
rules of the serializer.

The model has two layers.

- **Specification functions** (modules `Readers`, `Fields`, `Document`). Each
  Rust function becomes a function of the event stream `s: seq<Item>` and the
  cursor position `p` it starts at. It returns a `Parsed<T>`, which is either
  `Done(value, next)` or `Failed(error, next)`, with `next` the position the
  iterator has reached. An `Item` is an event or a producer error
  (`Some(Err(_))` from the iterator). Each `while let Some(Ok(event)) =
  iter.next()` loop becomes a recursive function over the position. Each
  `bail!` site, and the failed grade parse, maps to one constructor of the
  `Error` datatype; sites that report the same thing share it.
- **The imperative decoder** (module `Decoder`). The shared `&mut ParserIter`
  is the class `EventCursor`: an immutable event sequence and a mutable
  position field. Each reader and parser is a method with the same branches
  and loops as the Rust code. Its postcondition says that it returns what the
  matching specification function returns and leaves the cursor where that
  function says. `Decoder.Decode` is the decoding part of `main`. Its top-level
  key loop, inline in `main`, is the method `EventCursor.ParseKeys`, which
  owns the four accumulators.

The property modules (`FieldProperties`, `TestProperties`,
`DocumentProperties`) prove what each decoder accepts, what it builds and
which error every other input draws. They also prove round trips. The module
`Emit` writes the events of a value in the input shape the decoder reads: a
table as its four pairs (`__assert-match` included), a mode as
`{testmode: …}`, tests as the inner sequences `[input, expected]` or
`[input, expected, {xfail: true}]`. The lemmas show that the decoders read
those events back to the value. This is not the shape `main` serializes
(a sequence of suite mappings, with tests as mappings): the round trips are
about decoding, and say nothing of feeding the tool its own output.

Files: `wrappers.dfy` (Option, Result), `events.dfy` (events, the one-step
pull), `suite.dfy` (model types, defaults, serializer skip rules),
`readers.dfy`, `fields.dfy`, `document.dfy` (specification functions),
`cursor.dfy` (the imperative decoder), `emit.dfy` (events written from
values), `field_properties.dfy`, `test_properties.dfy`,
`document_properties.dfy`.

Where the tool's documented schema is richer than what the code implements,
the model follows the code:
- Only the fixed-key table mapping exists. A plain-scalar `table:` fails,
  because a MappingStart is expected.
- xfail is a plain boolean. The xfail mapping holds exactly one key
  (`forward` or `backward`), then MappingEnd.
- `parse_flags` rejects `forward`.
- An unknown test attribute fails with "expected Scalar or MappingEnd", not
  with an error of its own.
- A file always yields exactly one suite. `tests` may come before `table`.
- The `while let` loops end silently when the input runs out or the producer
  reports an error. They return what they have built so far.

## Model

| member | source | states |
|---|---|---|
| Events.Pull | src/main.rs:90 | `iter.next()` yields the item at the cursor exactly when the input is not exhausted, and `None` otherwise |
| Events.After | src/main.rs:90 | a pull moves the cursor one item on, except that an exhausted iterator stays where it is |
| Suite.NewTest | src/main.rs:242-270 | `Test { input, expected, xfail, ..Default::default() }` keeps the three given values and leaves every optional field at its default |
| Suite.IsFalse | src/main.rs:66-68 | `is_false` holds exactly for `false`, so the xfail field is skipped exactly when it is false |
| Suite.Skipped | src/main.rs:74-86 | for every test, a field is skipped exactly when it is neither `input` nor `expected` and already holds its `Default::default()` value (false, an empty vector or set, `None`), so resetting it changes nothing; for a test with no optional field set, that is exactly the optional fields and a false `xfail` |
| Suite.KeptFields | src/main.rs:74-86 | a field is kept exactly when it is among the given fields and its `skip_serializing_if` rule does not hold; never more fields than given |
| Suite.SerializedTestFields | src/main.rs:70-87 | a field of a test is written exactly when its skip rule (`is_false`, empty vector or set, `None`) does not hold |
| Readers.StreamStartAt | src/main.rs:89-97 | consumes exactly one item; succeeds exactly on StreamStart with UTF-8; a StreamStart with any other encoding gives UnsupportedEncoding with that encoding; anything else, or the end of input, gives "expected StreamStart" |
| Readers.ExpectAt | src/main.rs:99-146 | consumes exactly one item; succeeds exactly when it is an event of the wanted kind; otherwise, including the end of input or a producer error, fails with "expected" that kind |
| Readers.ScalarAt | src/main.rs:148-153 | consumes exactly one item; succeeds exactly on a Scalar, returning its text; otherwise fails with "expected Scalar" |
| Fields.ParseU8 | src/main.rs:167 | `str::parse::<u8>` refuses the empty text and a lone `+` |
| Fields.ModeNamed | src/main.rs:195-201 | every mode a spelling names is not `forward` and has that spelling as its name; `forward` names none |
| Fields.ReadXfailValue | src/main.rs:212-218 | `read_xfail_value` gives false exactly for "off" and "false", and true for every other text |
| Fields.TableAt | src/main.rs:155-188 | stops inside the stream, past its start when it succeeds |
| Fields.TableEntries | src/main.rs:158-186 | the table loop stops inside the stream |
| Fields.FlagsAt | src/main.rs:190-210 | stops inside the stream, past its start when it succeeds |
| Fields.XfailAt | src/main.rs:220-236 | stops inside the stream |
| Fields.TestAt | src/main.rs:238-275 | stops inside the stream, past its start when it succeeds |
| Fields.TestAttributes | src/main.rs:248-261 | the attribute loop stops inside the stream |
| Fields.TestsAt | src/main.rs:277-291 | stops inside the stream, past its start when it succeeds |
| Fields.TestList | src/main.rs:281-289 | the list loop stops inside the stream |
| Fields.TestListElement | src/main.rs:282-287 | the dispatch on the event that opens an element stops inside the stream |
| Fields.TestListItem | src/main.rs:288 | one pushed test then the rest of the loop stops inside the stream |
| Document.SuiteFields | src/main.rs:310-326 | the top-level key loop stops inside the stream |
| Document.SuiteKey | src/main.rs:311-325 | the dispatch on the event where a key is due stops inside the stream |
| Document.SuiteEntry | src/main.rs:312-318 | the dispatch on a scalar key stops inside the stream |
| Document.DisplayField | src/main.rs:313 | `display` then the rest of the loop stops inside the stream |
| Document.TableField | src/main.rs:314 | `table` then the rest of the loop stops inside the stream |
| Document.FlagsField | src/main.rs:315 | `flags` then the rest of the loop stops inside the stream |
| Document.TestsField | src/main.rs:316 | `tests` then the rest of the loop stops inside the stream |
| Document.DecodeEvents | src/main.rs:300-338 | a successful decode yields exactly one suite |
| Decoder.EventCursor.Next | src/main.rs:90 | `iter.next()` returns the item `Pull` gives at the cursor and moves the cursor to `After` |
| Decoder.EventCursor.ReadStreamStart | src/main.rs:89-97 | returns what `StreamStartAt` returns and moves the cursor as it says |
| Decoder.EventCursor.Expect | src/main.rs:99-146 | returns what `ExpectAt` returns for the wanted kind and moves the cursor as it says |
| Decoder.EventCursor.ReadScalar | src/main.rs:148-153 | returns what `ScalarAt` returns and moves the cursor as it says |
| Decoder.EventCursor.ParseTable | src/main.rs:155-188 | the loop that reassigns `table` returns what `TableAt` returns and leaves the cursor where it says |
| Decoder.EventCursor.ParseFlags | src/main.rs:190-210 | returns what `FlagsAt` returns and leaves the cursor where it says |
| Decoder.EventCursor.ParseXfailValue | src/main.rs:220-236 | returns what `XfailAt` returns and leaves the cursor where it says |
| Decoder.EventCursor.ParseTestAttributes | src/main.rs:248-261 | the loop that updates `xfail` returns what `TestAttributes` returns from `false` |
| Decoder.EventCursor.ParseTest | src/main.rs:238-275 | returns what `TestAt` returns and leaves the cursor where it says |
| Decoder.EventCursor.ParseTests | src/main.rs:277-291 | the loop that pushes onto `tests` returns what `TestsAt` returns and leaves the cursor where it says |
| Decoder.EventCursor.ParseKeys | src/main.rs:303-326 | the loop that mutates `display_table`, `table`, `test_mode` and `tests` returns the suite `SuiteFields` builds from the default suite and leaves the cursor where it says |
| Decoder.Decode | src/main.rs:299-338 | the framing reads around the key loop, then the push of the one suite, return what `DecodeEvents` returns |
| FieldProperties.ParseDecimal | src/main.rs:167 | a grade written in decimal parses exactly when its value is below 256, to that value; a leading `+` changes nothing |
| FieldProperties.GradeRoundTrip | src/main.rs:41 | every `u8` grade written in decimal parses back to itself |
| FieldProperties.TableEntryStep | src/main.rs:160-179 | one accepted key/value pair is consumed as two scalars and replaces only its own field |
| FieldProperties.TableEntriesOverPairs | src/main.rs:158-186 | a run of accepted pairs is consumed two scalars at a time, applying the pairs in order |
| FieldProperties.PairsLoop | src/main.rs:158-186 | the same run of pairs, with the end position and the table it builds named |
| FieldProperties.LastEntryWins | src/main.rs:161-177 | each table field is the value of the last pair with its key, or stays the starting value when there is none (`..table`) |
| FieldProperties.TableDecodesPairs | src/main.rs:155-188 | a mapping of accepted pairs decodes to the default table updated by each pair in turn, ending just after MappingEnd |
| FieldProperties.TableRejectsUnknownKey | src/main.rs:178 | after accepted pairs, a scalar key other than the four fails with that key |
| FieldProperties.TableRejectsGrade | src/main.rs:166-169 | after accepted pairs, a `grade` whose text is not a `u8` fails with that text |
| FieldProperties.TableRejectsValue | src/main.rs:162-177 | after accepted pairs, a known key whose value is not a scalar fails with "expected Scalar" |
| FieldProperties.TableRejectsEvent | src/main.rs:184 | after accepted pairs, an event that is neither a scalar nor MappingEnd fails |
| FieldProperties.TableNeedsMappingStart | src/main.rs:156 | without a leading MappingStart, parse_table fails with "expected MappingStart" |
| FieldProperties.TableEndsAfterPairs | src/main.rs:158-187 | after accepted pairs, MappingEnd, the end of input or a producer error completes the table |
| FieldProperties.TablePairsRebuild | src/main.rs:157-177 | the four pairs that describe a table are accepted and rebuild it from the default |
| FieldProperties.TableRoundTrip | src/main.rs:155-188 | a table written as its mapping decodes to itself |
| FieldProperties.ModeNamedInverse | src/main.rs:195-201 | a spelling names a mode exactly when that mode is not `forward` and the spelling is its name |
| FieldProperties.FlagsForms | src/main.rs:190-210 | parse_flags yields mode m exactly when m is not `forward` and the input is `{testmode: <name of m>}`; on success four events are consumed |
| FieldProperties.FlagsWritten | src/main.rs:190-205 | a written flags mapping decodes to its mode |
| FieldProperties.FlagsDecoded | src/main.rs:190-210 | whatever parse_flags accepts is the written form of a mode other than `forward` |
| FieldProperties.FlagsRejectMode | src/main.rs:195-201 | any spelling that names no accepted mode, `forward` included, fails with that spelling |
| FieldProperties.FlagsNeedTestmode | src/main.rs:192-208 | an entry other than the scalar `testmode` fails with "expected Scalar testmode" |
| FieldProperties.FlagsRejectShape | src/main.rs:191-206 | no MappingStart, no scalar after `testmode`, or no MappingEnd after an accepted mode each fail with the matching "expected" |
| FieldProperties.XfailForms | src/main.rs:212-236 | parse_xfail_value succeeds exactly on a scalar, or on a mapping with one key `forward` or `backward`, a scalar and MappingEnd; it consumes one or four events, and the value is false exactly for `off` and `false` |
| FieldProperties.XfailRejects | src/main.rs:220-236 | a first event that is neither a Scalar nor MappingStart fails with UnsupportedXfailShape; a scalar key other than `forward` or `backward` fails with UnsupportedXfailKey of that key; a missing scalar key or a missing scalar value fails with "expected Scalar"; anything but MappingEnd after the value fails with "expected MappingEnd" |
| TestProperties.XfailFormDecodes | src/main.rs:220-236 | an accepted `xfail` value, a scalar or a `{forward|backward: text}` mapping, decodes to `read_xfail_value` of its text and consumes exactly its events |
| TestProperties.XfailEntryStep | src/main.rs:251-252 | one `xfail` entry of either form replaces the value so far with its own |
| TestProperties.XfailRun | src/main.rs:249-253 | the induction over a run of entries, naming where it ends and the value it leaves |
| TestProperties.XfailEntriesLastWins | src/main.rs:249-253 | a run of `xfail` entries, each a scalar or a `{forward|backward: text}` mapping, leaves the value of the last one |
| TestProperties.AttributesEnd | src/main.rs:249-256 | after `xfail` entries of either form, the attribute mapping closes at MappingEnd with the last xfail value, or the starting value when there is none |
| TestProperties.AttributesStop | src/main.rs:249-256 | after a run of xfail entries of either form, the attribute loop completes with the last value at MappingEnd, at the end of input or at a producer error |
| TestProperties.AttributesRejectKey | src/main.rs:257-259 | after `xfail` entries of either form, any key other than `xfail`, or any non-scalar key, fails |
| TestProperties.TestPlain | src/main.rs:239-246 | `[input, expected]` decodes to a test with xfail false and every optional field empty |
| TestProperties.AttributeTestLayout | src/main.rs:239-247 | where the two scalars, the MappingStart and the xfail entries of a test with attributes stand |
| TestProperties.TestAfterAttributes | src/main.rs:247-270 | after the attribute mapping, SequenceEnd completes the test with the decoded xfail; anything else fails with "expected SequenceEnd" |
| TestProperties.TestWithAttributes | src/main.rs:247-270 | `[input, expected, {xfail: v…}]`, each `v` a scalar or a `{forward|backward: text}` mapping, decodes to a test carrying the last xfail value |
| TestProperties.TestNeedsScalars | src/main.rs:239-240 | a missing `input` or `expected` scalar fails with "expected Scalar" |
| TestProperties.TestRejectsThird | src/main.rs:241-273 | a third event other than SequenceEnd or MappingStart fails |
| TestProperties.TestNeedsSequenceEnd | src/main.rs:263 | the test must close after its attribute mapping |
| TestProperties.DecodedTestFields | src/main.rs:238-275 | a decoded test has every optional field empty, so exactly input, expected and (when true) xfail are serialized |
| TestProperties.CaseRoundTrip | src/main.rs:238-275 | a test written in the input shape decodes to itself |
| TestProperties.TestListExtends | src/main.rs:281-289 | the loop only appends to the tests already decoded, and appends only unpopulated tests |
| TestProperties.TestListStep | src/main.rs:285-288 | one written element is decoded and pushed |
| TestProperties.ListEventsSplit | src/main.rs:281-289 | the first element of a written list and the rest, each in its place |
| TestProperties.FirstCaseDecodes | src/main.rs:281-289 | the first element of a written list is decoded; the rest follows it |
| TestProperties.TestListOverCases | src/main.rs:281-289 | written elements are decoded one after another and appended in source order |
| TestProperties.CasesLoop | src/main.rs:281-289 | the same, with the end position and the list built named |
| TestProperties.TestsNeedSequenceStart | src/main.rs:280 | without a leading SequenceStart, parse_tests fails |
| TestProperties.TestsRoundTrip | src/main.rs:277-291 | a written list of tests decodes to itself, one test per inner sequence, in order |
| TestProperties.TestListRejects | src/main.rs:285-287 | after decoded elements, an event that is neither SequenceStart nor SequenceEnd fails with "expected SequenceStart" |
| TestProperties.ListStopsAt | src/main.rs:281-287 | the loop stops at SequenceEnd, the end of input or a producer error, and fails on any other non-SequenceStart event |
| TestProperties.TestListEnds | src/main.rs:281-290 | after decoded elements, SequenceEnd, the end of input or a producer error completes the list |
| DocumentProperties.DisplayEntryDecodes | src/main.rs:313 | `display: path` sets only the display table |
| DocumentProperties.TableEntryDecodes | src/main.rs:314 | `table: {…}` sets only the table |
| DocumentProperties.FlagsEntryDecodes | src/main.rs:315 | `flags: {testmode: m}` sets only the mode |
| DocumentProperties.TestsEntryDecodes | src/main.rs:316 | `tests: […]` sets only the tests |
| DocumentProperties.DisplayEntryStep | src/main.rs:313 | one written display entry is applied to the suite |
| DocumentProperties.TableEntryStep | src/main.rs:314 | one written table entry is applied to the suite |
| DocumentProperties.FlagsEntryStep | src/main.rs:315 | one written flags entry is applied to the suite |
| DocumentProperties.TestsEntryStep | src/main.rs:316 | one written tests entry is applied to the suite |
| DocumentProperties.EntryDecodes | src/main.rs:312-316 | any written entry is consumed and applied to the suite |
| DocumentProperties.EntriesEventsSplit | src/main.rs:310-326 | the first entry of a written mapping and the rest, each in its place |
| DocumentProperties.FirstEntryDecodes | src/main.rs:310-326 | the first written entry is decoded; the rest follows it |
| DocumentProperties.SuiteFieldsOverEntries | src/main.rs:310-326 | written entries are decoded one after another, each applied in turn |
| DocumentProperties.EntriesLoop | src/main.rs:310-326 | the same, with the end position and the suite built named |
| DocumentProperties.EntriesLastWins | src/main.rs:305-316 | each suite field comes from the last entry with its key, or keeps its starting value; from the default suite that is `forward`, the default table and no tests |
| DocumentProperties.DecodeFraming | src/main.rs:300-338 | StreamStart(UTF-8), DocumentStart and MappingStart around a completed key loop, then DocumentEnd and StreamEnd, decode to exactly that one suite |
| DocumentProperties.DocumentLayout | src/main.rs:300-329 | where the framing events and the entries of a written document stand |
| DocumentProperties.DecodeDocument | src/main.rs:300-338 | a written document decodes to the default suite updated by each entry in turn, and to nothing else |
| DocumentProperties.SuiteEntriesRebuild | src/main.rs:304-336 | the entries that write a suite are writable and rebuild it from the default |
| DocumentProperties.SuiteRoundTrip | src/main.rs:300-338 | a suite with unpopulated tests, written as a document, decodes to exactly itself |
| DocumentProperties.UnknownKeyAt | src/main.rs:317 | a scalar key other than the four fails with UnknownField |
| DocumentProperties.UnknownKeyFails | src/main.rs:317 | after written entries, a scalar key other than the four fails with UnknownField |
| DocumentProperties.NonScalarKeyAt | src/main.rs:322-324 | an event that is neither a scalar nor MappingEnd where a key is due fails with "expected Scalar" |
| DocumentProperties.NonScalarKeyFails | src/main.rs:322-324 | the same after written entries |
| DocumentProperties.ScalarTableRejected | src/main.rs:314 | a plain-scalar `table:` fails with "expected MappingStart" |
| DocumentProperties.LoopEndAt | src/main.rs:310-321 | the key loop stops at MappingEnd, the end of input or a producer error |
| DocumentProperties.SuiteFieldsEnds | src/main.rs:310-321 | after written entries, the key loop stops there with the suite they build |
| DocumentProperties.DecodeNeedsUtf8 | src/main.rs:89-97 | a stream that does not open with StreamStart(UTF-8) is refused at once, with UnsupportedEncoding or "expected StreamStart" |
| DocumentProperties.SuiteFieldsStops | src/main.rs:310-326 | when the key loop succeeds, it stopped at the end of input, just after MappingEnd or just after a producer error |
| DocumentProperties.SuiteEntryStops | src/main.rs:312-317 | the same holds for the rest of the loop after any scalar key |
| DocumentProperties.DisplayFieldStops | src/main.rs:313 | the same after a `display` key |
| DocumentProperties.TableFieldStops | src/main.rs:314 | the same after a `table` key |
| DocumentProperties.FlagsFieldStops | src/main.rs:315 | the same after a `flags` key |
| DocumentProperties.TestsFieldStops | src/main.rs:316 | the same after a `tests` key |
| DocumentProperties.DecodedFraming | src/main.rs:300-329 | every successful decode opened with StreamStart(UTF-8), DocumentStart and MappingStart, and closed with MappingEnd or a producer error, then DocumentEnd and StreamEnd |
| DocumentProperties.SuiteFieldsUnpopulated | src/main.rs:310-326 | the key loop keeps every test unpopulated |
| DocumentProperties.DecodedTestsUnpopulated | src/main.rs:300-338 | every test of a decoded suite has its optional fields empty |

## Left out

- Command-line parsing (`Args`, clap), opening the input file and routing the output to a file or stdout (src/main.rs:16-24, 294-298, 342-349): I/O plumbing. `Decoder.Decode` takes the event sequence as its parameter.
- The libyaml producer. The model takes the items it yields as given. A producer error is one `ProducerError` item: the readers fail on it and the `while let` loops stop at it. What the iterator yields after an error is whatever the sequence holds.
- `serde_yaml::to_string` and the text it emits (src/main.rs:340). Only the field-omission rules (`is_false`, empty vectors and sets, `None`) are modelled, as `Suite.KeptFields` and `Suite.SerializedTestFields`.
- Scalar style, anchors, tags and the implicit flags of events: no reader looks at them. The Alias event is kept, without its anchor, only as an event that every reader rejects.
- Error message texts (anyhow): errors are a datatype of kinds. Each `bail!` site maps to one kind, and sites that report the same thing share it: "expected Scalar" at src/main.rs:151, 206 and 323, "expected Scalar or MappingEnd" at 184 and 258, "expected SequenceStart" at 137 and 286. An "expected" error records the kind wanted but not the event seen.
- Error data the program does not report: `UnknownField` records the key, where the source bails with an empty message (src/main.rs:317), and `InvalidGrade` records the grade text, where the source passes on a `ParseIntError` that does not hold it (src/main.rs:167). `InvalidGrade` is not a `bail!` site but the error of that `?`.
- The `input_pos`, `output_pos`, `cursor_pos`, `mode` and `max_output_length` fields of a test: no decoder fills them in, so they keep their defaults, as `Unpopulated` states.
- `PathBuf`: the display table and the `__assert-match` path are plain strings.
- src/normalized.rs only declares types that `main.rs` does not use. It is not part of this model.
- `Emit` writes only one input shape per value. The round-trip lemmas cover those shapes; other accepted inputs are handled by the per-branch lemmas. These include a grade with a leading `+`, xfail values other than `true`, the `{forward: v}` and `{backward: v}` xfail forms (covered inside a test by the attribute lemmas), repeated keys, and keys in any order.
- Fields.ParseU8: its own contract only says that the empty text and a lone `+` are refused. `FieldProperties.ParseDecimal` states which decimal texts are accepted. Other texts, such as those with leading zeros, are covered only by the definition. Rust's `ParseIntError` becomes the `InvalidGrade` kind.
- Fields.TableAt, Fields.TableEntries, Fields.FlagsAt, Fields.XfailAt, Fields.TestAt, Fields.TestAttributes, Fields.TestsAt, Fields.TestList, Fields.TestListElement, Fields.TestListItem, Document.SuiteFields, Document.SuiteKey, Document.SuiteEntry, Document.DisplayField, Document.TableField, Document.FlagsField, Document.TestsField and Document.DecodeEvents: their own contracts only bound the position they reach. What they decode and which errors they raise is stated by the lemmas of `FieldProperties`, `TestProperties` and `DocumentProperties`.
