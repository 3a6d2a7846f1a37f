/**
 * The decoding part of `main` (src/main.rs): stream, document and top-level
 * mapping boundaries around a loop over the keys `display`, `table`, `flags`
 * and `tests`, producing a list that holds exactly one suite.
 */
module Document {
  import opened Wrappers
  import opened Events
  import opened Suite
  import opened Readers
  import opened Fields

  /**
   * The top-level key loop.  `suite` carries the four accumulators of `main`
   * (`display_table`, `table`, `test_mode`, `tests`); a later key overwrites
   * what an earlier one set.
   */
  function SuiteFields(s: seq<Item>, p: nat, suite: TestSuite): (r: Parsed<TestSuite>)
    requires p <= |s|
    ensures p <= r.next <= |s|
    decreases |s| - p, 3
  {
    match Pull(s, p)
    case None => Done(suite, p)
    case Some(ProducerError) => Done(suite, p + 1)
    case Some(Produced(e)) => SuiteKey(s, p + 1, e, suite)
  }

  /** The dispatch on the event `e` read where a key is due; what follows it starts at `p`. */
  function SuiteKey(s: seq<Item>, p: nat, e: Event, suite: TestSuite): (r: Parsed<TestSuite>)
    requires p <= |s|
    ensures p <= r.next <= |s|
    decreases |s| - p, 2
  {
    if e.Scalar? then
      SuiteEntry(s, p, e.value, suite)
    else if e.MappingEnd? then
      Done(suite, p)
    else
      Failed(Expected(WantScalar), p)
  }

  /** The dispatch on a scalar key; the value starts at `p`. */
  function SuiteEntry(s: seq<Item>, p: nat, key: string, suite: TestSuite): (r: Parsed<TestSuite>)
    requires p <= |s|
    ensures p <= r.next <= |s|
    decreases |s| - p, 1
  {
    if key == "display" then DisplayField(s, p, suite)
    else if key == "table" then TableField(s, p, suite)
    else if key == "flags" then FlagsField(s, p, suite)
    else if key == "tests" then TestsField(s, p, suite)
    else Failed(UnknownField(key), p)
  }

  /** `display`: a scalar, then the rest of the loop. */
  function DisplayField(s: seq<Item>, p: nat, suite: TestSuite): (r: Parsed<TestSuite>)
    requires p <= |s|
    ensures p <= r.next <= |s|
    decreases |s| - p, 0
  {
    var d :- ScalarAt(s, p);
    SuiteFields(s, d.next, suite.(displayTable := d.value))
  }

  /** `table`: a table mapping, then the rest of the loop. */
  function TableField(s: seq<Item>, p: nat, suite: TestSuite): (r: Parsed<TestSuite>)
    requires p <= |s|
    ensures p <= r.next <= |s|
    decreases |s| - p, 0
  {
    var t :- TableAt(s, p);
    SuiteFields(s, t.next, suite.(table := t.value))
  }

  /** `flags`: a flags mapping, then the rest of the loop. */
  function FlagsField(s: seq<Item>, p: nat, suite: TestSuite): (r: Parsed<TestSuite>)
    requires p <= |s|
    ensures p <= r.next <= |s|
    decreases |s| - p, 0
  {
    var m :- FlagsAt(s, p);
    SuiteFields(s, m.next, suite.(mode := m.value))
  }

  /** `tests`: a test list, then the rest of the loop. */
  function TestsField(s: seq<Item>, p: nat, suite: TestSuite): (r: Parsed<TestSuite>)
    requires p <= |s|
    ensures p <= r.next <= |s|
    decreases |s| - p, 0
  {
    var ts :- TestsAt(s, p);
    SuiteFields(s, ts.next, suite.(tests := ts.value))
  }

  /** The whole decode of one file's event stream into the list of suites `main` serializes. */
  function DecodeEvents(s: seq<Item>): (r: Parsed<seq<TestSuite>>)
    ensures r.next <= |s|
    ensures r.Done? ==> |r.value| == 1
  {
    var streamStart :- StreamStartAt(s, 0);
    var documentStart :- ExpectAt(s, streamStart.next, DocumentStartKind);
    var mappingStart :- ExpectAt(s, documentStart.next, MappingStartKind);
    var suite :- SuiteFields(s, mappingStart.next, DefaultSuite);
    var documentEnd :- ExpectAt(s, suite.next, DocumentEndKind);
    var streamEnd :- ExpectAt(s, documentEnd.next, StreamEndKind);
    Done([suite.value], streamEnd.next)
  }
}
