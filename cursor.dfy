/**
 * The decoder as src/main.rs writes it: functions that pull events one at a
 * time from a shared parser iterator.  The iterator is an `EventCursor` over
 * the event stream; every method is proved to return what the matching
 * specification function of Readers, Fields and Document returns and to leave
 * the cursor where that function says.
 */
module Decoder {
  import opened Wrappers
  import opened Events
  import opened Suite
  import opened Readers
  import opened Fields
  import opened Document

  class EventCursor {
    /** Everything the parser will yield, in order. */
    const events: seq<Item>
    /** How many items have been pulled. */
    var pos: nat

    ghost predicate Valid()
      reads this
    {
      pos <= |events|
    }

    /** The method returned `r` and moved the cursor exactly as `spec` says. */
    ghost predicate Agrees<T>(r: Result<T, Error>, spec: Parsed<T>)
      reads this
    {
      r == spec.Outcome() && pos == spec.next
    }

    constructor (events: seq<Item>)
      ensures this.events == events && pos == 0 && Valid()
    {
      this.events := events;
      pos := 0;
    }

    /** `iter.next()`. */
    method Next() returns (x: Option<Item>)
      requires Valid()
      modifies this
      ensures Valid()
      ensures x == Pull(events, old(pos)) && pos == After(events, old(pos))
    {
      if pos < |events| {
        x := Some(events[pos]);
        pos := pos + 1;
      } else {
        x := None;
      }
    }

    /** read_stream_start. */
    method ReadStreamStart() returns (r: Result<(), Error>)
      requires Valid()
      modifies this
      ensures Valid() && Agrees(r, StreamStartAt(events, old(pos)))
    {
      var item := Next();
      match item
      case Some(Produced(StreamStart(encoding))) =>
        if encoding == Some(Utf8) {
          r := Ok(());
        } else {
          r := Err(UnsupportedEncoding(encoding));
        }
      case _ =>
        r := Err(Expected(WantStreamStart));
    }

    /** read_stream_end, read_document_start/end, read_mapping_start/end, read_sequence_start/end. */
    method Expect(k: Boundary) returns (r: Result<(), Error>)
      requires Valid()
      modifies this
      ensures Valid() && Agrees(r, ExpectAt(events, old(pos), k))
    {
      var item := Next();
      if item.Some? && item.value.Produced? && Matches(item.value.event, k) {
        r := Ok(());
      } else {
        r := Err(Expected(WantedFor(k)));
      }
    }

    /** read_scalar. */
    method ReadScalar() returns (r: Result<string, Error>)
      requires Valid()
      modifies this
      ensures Valid() && Agrees(r, ScalarAt(events, old(pos)))
    {
      var item := Next();
      match item
      case Some(Produced(Scalar(value))) =>
        r := Ok(value);
      case _ =>
        r := Err(Expected(WantScalar));
    }

    /** parse_table. */
    method ParseTable() returns (r: Result<Table, Error>)
      requires Valid()
      modifies this
      ensures Valid() && Agrees(r, TableAt(events, old(pos)))
    {
      var _ :- Expect(MappingStartKind);
      var table := DefaultTable;
      ghost var entries := pos;
      while true
        invariant Valid() && entries <= pos
        invariant TableEntries(events, pos, table) == TableEntries(events, entries, DefaultTable)
        decreases |events| - pos
      {
        var item := Next();
        match item
        case Some(Produced(e)) =>
          if e.Scalar? {
            if e.value == "language" {
              var v :- ReadScalar();
              table := table.(language := v);
            } else if e.value == "grade" {
              var v :- ReadScalar();
              var grade := ParseU8(v);
              if grade.None? {
                return Err(InvalidGrade(v));
              }
              table := table.(grade := grade.value);
            } else if e.value == "system" {
              var v :- ReadScalar();
              table := table.(system := v);
            } else if e.value == "__assert-match" {
              var v :- ReadScalar();
              table := table.(path := v);
            } else {
              return Err(UnknownTableAttribute(e.value));
            }
          } else if e.MappingEnd? {
            break;
          } else {
            return Err(Expected(WantScalarOrMappingEnd));
          }
        case _ =>
          break;
      }
      r := Ok(table);
    }

    /** parse_flags. */
    method ParseFlags() returns (r: Result<TestMode, Error>)
      requires Valid()
      modifies this
      ensures Valid() && Agrees(r, FlagsAt(events, old(pos)))
    {
      var _ :- Expect(MappingStartKind);
      var key := Next();
      if key != Some(Produced(Scalar("testmode"))) {
        return Err(Expected(WantTestmodeKey));
      }
      var item := Next();
      match item
      case Some(Produced(Scalar(value))) =>
        var mode := ModeNamed(value);
        if mode.None? {
          return Err(UnsupportedTestMode(value));
        }
        var _ :- Expect(MappingEndKind);
        r := Ok(mode.value);
      case _ =>
        r := Err(Expected(WantScalar));
    }

    /** parse_xfail_value. */
    method ParseXfailValue() returns (r: Result<bool, Error>)
      requires Valid()
      modifies this
      ensures Valid() && Agrees(r, XfailAt(events, old(pos)))
    {
      var item := Next();
      match item
      case Some(Produced(Scalar(value))) =>
        r := Ok(ReadXfailValue(value));
      case Some(Produced(MappingStart)) =>
        var key :- ReadScalar();
        if key != "forward" && key != "backward" {
          return Err(UnsupportedXfailKey(key));
        }
        var value :- ReadScalar();
        var _ :- Expect(MappingEndKind);
        r := Ok(ReadXfailValue(value));
      case _ =>
        r := Err(UnsupportedXfailShape);
    }

    /** The loop of parse_test over the attribute mapping, entered just after its MappingStart. */
    method ParseTestAttributes() returns (r: Result<bool, Error>)
      requires Valid()
      modifies this
      ensures Valid() && Agrees(r, TestAttributes(events, old(pos), false))
    {
      var xfail := false;
      ghost var attributes := pos;
      while true
        invariant Valid() && attributes <= pos
        invariant TestAttributes(events, pos, xfail) == TestAttributes(events, attributes, false)
        decreases |events| - pos
      {
        var attribute := Next();
        match attribute
        case Some(Produced(e)) =>
          if e == Scalar("xfail") {
            xfail :- ParseXfailValue();
          } else if e.MappingEnd? {
            break;
          } else {
            return Err(Expected(WantScalarOrMappingEnd));
          }
        case _ =>
          break;
      }
      r := Ok(xfail);
    }

    /** parse_test. */
    method ParseTest() returns (r: Result<Test, Error>)
      requires Valid()
      modifies this
      ensures Valid() && Agrees(r, TestAt(events, old(pos)))
    {
      var input :- ReadScalar();
      var expected :- ReadScalar();
      var item := Next();
      match item
      case Some(Produced(SequenceEnd)) =>
        r := Ok(NewTest(input, expected, false));
      case Some(Produced(MappingStart)) =>
        var xfail :- ParseTestAttributes();
        var _ :- Expect(SequenceEndKind);
        r := Ok(NewTest(input, expected, xfail));
      case _ =>
        r := Err(Expected(WantSequenceEndOrMappingStart));
    }

    /** parse_tests. */
    method ParseTests() returns (r: Result<seq<Test>, Error>)
      requires Valid()
      modifies this
      ensures Valid() && Agrees(r, TestsAt(events, old(pos)))
    {
      var tests: seq<Test> := [];
      var _ :- Expect(SequenceStartKind);
      ghost var elements := pos;
      while true
        invariant Valid() && elements <= pos
        invariant TestList(events, pos, tests) == TestList(events, elements, [])
        decreases |events| - pos
      {
        var item := Next();
        match item
        case Some(Produced(e)) =>
          if e.SequenceEnd? {
            break;
          }
          if !e.SequenceStart? {
            return Err(Expected(WantSequenceStart));
          }
          assert TestList(events, pos - 1, tests) == TestListItem(events, pos, tests);
          var t :- ParseTest();
          tests := tests + [t];
        case _ =>
          break;
      }
      r := Ok(tests);
    }

    /**
     * The top-level key loop of `main`: the four accumulators start at their
     * defaults and each key overwrites its own; the suite they form is returned.
     */
    method ParseKeys() returns (r: Result<TestSuite, Error>)
      requires Valid()
      modifies this
      ensures Valid() && Agrees(r, SuiteFields(events, old(pos), DefaultSuite))
    {
      var displayTable := "";
      var table := DefaultTable;
      var testMode := Forward;
      var tests: seq<Test> := [];

      ghost var keys := pos;
      while true
        invariant Valid() && keys <= pos
        invariant SuiteFields(events, pos, TestSuite(displayTable, table, testMode, tests))
               == SuiteFields(events, keys, DefaultSuite)
        decreases |events| - pos
      {
        var item := Next();
        match item
        case Some(Produced(e)) =>
          if e.Scalar? {
            ghost var value := pos;
            ghost var suite := TestSuite(displayTable, table, testMode, tests);
            assert SuiteFields(events, value - 1, suite) == SuiteEntry(events, value, e.value, suite);
            if e.value == "display" {
              assert SuiteEntry(events, value, e.value, suite) == DisplayField(events, value, suite);
              displayTable :- ReadScalar();
            } else if e.value == "table" {
              assert SuiteEntry(events, value, e.value, suite) == TableField(events, value, suite);
              table :- ParseTable();
            } else if e.value == "flags" {
              assert SuiteEntry(events, value, e.value, suite) == FlagsField(events, value, suite);
              testMode :- ParseFlags();
            } else if e.value == "tests" {
              assert SuiteEntry(events, value, e.value, suite) == TestsField(events, value, suite);
              tests :- ParseTests();
            } else {
              return Err(UnknownField(e.value));
            }
          } else if e.MappingEnd? {
            break;
          } else {
            return Err(Expected(WantScalar));
          }
        case _ =>
          break;
      }
      r := Ok(TestSuite(displayTable, table, testMode, tests));
    }
  }

  /** The decoding part of `main`: one file's events to the list of suites it serializes. */
  method Decode(events: seq<Item>) returns (r: Result<seq<TestSuite>, Error>)
    ensures r == DecodeEvents(events).Outcome()
  {
    var iter := new EventCursor(events);
    var _ :- iter.ReadStreamStart();
    var _ :- iter.Expect(DocumentStartKind);
    var _ :- iter.Expect(MappingStartKind);

    var testSuites: seq<TestSuite> := [];
    var testSuite :- iter.ParseKeys();

    var _ :- iter.Expect(DocumentEndKind);
    var _ :- iter.Expect(StreamEndKind);

    testSuites := testSuites + [testSuite];
    assert testSuites == [testSuite];
    r := Ok(testSuites);
  }
}
