/**
 * What the decoding part of `main` promises: a document written from top-level
 * entries decodes to the suite those entries describe (the last entry of each
 * key winning), every suite written in the input shape decodes to itself,
 * unknown or malformed keys are errors, and a successful decode has read
 * exactly the stream, document and mapping framing around the entries.
 */
module DocumentProperties {
  import opened Wrappers
  import opened Events
  import opened Suite
  import opened Readers
  import opened Fields
  import opened Document
  import opened Emit
  import opened FieldProperties
  import opened TestProperties

  // ---------------------------------------------------------------- entries

  /** `display: <path>` sets the display table. */
  lemma {:induction false} DisplayEntryDecodes(s: seq<Item>, p: nat, suite: TestSuite, path: string)
    requires At(s, p, [ScalarItem("display"), ScalarItem(path)])
    ensures SuiteFields(s, p, suite) == SuiteFields(s, p + 2, suite.(displayTable := path))
  {
    AtIndex(s, p, [ScalarItem("display"), ScalarItem(path)], 0);
    AtIndex(s, p, [ScalarItem("display"), ScalarItem(path)], 1);
    assert SuiteFields(s, p, suite) == SuiteEntry(s, p + 1, "display", suite);
    assert SuiteEntry(s, p + 1, "display", suite) == DisplayField(s, p + 1, suite);
  }

  /** `table: {...}` sets the table. */
  lemma {:induction false} TableEntryDecodes(s: seq<Item>, p: nat, suite: TestSuite, t: Table)
    requires At(s, p, [ScalarItem("table")] + TableEvents(t))
    ensures SuiteFields(s, p, suite) == SuiteFields(s, p + 1 + |TableEvents(t)|, suite.(table := t))
  {
    AtSplit(s, p, [ScalarItem("table")], TableEvents(t));
    AtIndex(s, p, [ScalarItem("table")], 0);
    TableRoundTrip(s, p + 1, t);
    assert SuiteFields(s, p, suite) == SuiteEntry(s, p + 1, "table", suite);
    assert SuiteEntry(s, p + 1, "table", suite) == TableField(s, p + 1, suite);
  }

  /** `flags: {testmode: <mode>}` sets the test mode. */
  lemma {:induction false} FlagsEntryDecodes(s: seq<Item>, p: nat, suite: TestSuite, m: TestMode)
    requires m != Forward && At(s, p, [ScalarItem("flags")] + FlagsEvents(m))
    ensures SuiteFields(s, p, suite) == SuiteFields(s, p + 1 + |FlagsEvents(m)|, suite.(mode := m))
  {
    AtSplit(s, p, [ScalarItem("flags")], FlagsEvents(m));
    AtIndex(s, p, [ScalarItem("flags")], 0);
    FlagsForms(s, p + 1, m);
    assert FlagsAt(s, p + 1) == Done(m, p + 5);
    assert SuiteFields(s, p, suite) == SuiteEntry(s, p + 1, "flags", suite);
    assert SuiteEntry(s, p + 1, "flags", suite) == FlagsField(s, p + 1, suite);
  }

  /** `tests: [...]` sets the tests. */
  lemma {:induction false} TestsEntryDecodes(s: seq<Item>, p: nat, suite: TestSuite, ts: seq<Test>)
    requires AllUnpopulated(ts) && At(s, p, [ScalarItem("tests")] + TestsEvents(ts))
    ensures SuiteFields(s, p, suite) == SuiteFields(s, p + 1 + |TestsEvents(ts)|, suite.(tests := ts))
  {
    AtSplit(s, p, [ScalarItem("tests")], TestsEvents(ts));
    AtIndex(s, p, [ScalarItem("tests")], 0);
    TestsRoundTrip(s, p + 1, ts);
    assert SuiteFields(s, p, suite) == SuiteEntry(s, p + 1, "tests", suite);
    assert SuiteEntry(s, p + 1, "tests", suite) == TestsField(s, p + 1, suite);
  }

  /** `DisplayEntryDecodes` stated for an `Entry` through `ApplyEntry`; one lemma per case keeps `EntryDecodes` small. */
  lemma {:induction false} DisplayEntryStep(s: seq<Item>, p: nat, suite: TestSuite, e: Entry)
    requires e.DisplayEntry? && Writable(e) && At(s, p, EntryEvents(e))
    ensures SuiteFields(s, p, suite) == SuiteFields(s, p + |EntryEvents(e)|, ApplyEntry(suite, e))
  {
    DisplayEntryDecodes(s, p, suite, e.path);
  }

  /** `TableEntryDecodes` stated for an `Entry` through `ApplyEntry`; one lemma per case keeps `EntryDecodes` small. */
  lemma {:induction false} TableEntryStep(s: seq<Item>, p: nat, suite: TestSuite, e: Entry)
    requires e.TableEntry? && Writable(e) && At(s, p, EntryEvents(e))
    ensures SuiteFields(s, p, suite) == SuiteFields(s, p + |EntryEvents(e)|, ApplyEntry(suite, e))
  {
    TableEntryDecodes(s, p, suite, e.table);
  }

  /** `FlagsEntryDecodes` stated for an `Entry` through `ApplyEntry`; one lemma per case keeps `EntryDecodes` small. */
  lemma {:induction false} FlagsEntryStep(s: seq<Item>, p: nat, suite: TestSuite, e: Entry)
    requires e.FlagsEntry? && Writable(e) && At(s, p, EntryEvents(e))
    ensures SuiteFields(s, p, suite) == SuiteFields(s, p + |EntryEvents(e)|, ApplyEntry(suite, e))
  {
    FlagsEntryDecodes(s, p, suite, e.mode);
  }

  /** `TestsEntryDecodes` stated for an `Entry` through `ApplyEntry`; one lemma per case keeps `EntryDecodes` small. */
  lemma {:induction false} TestsEntryStep(s: seq<Item>, p: nat, suite: TestSuite, e: Entry)
    requires e.TestsEntry? && Writable(e) && At(s, p, EntryEvents(e))
    ensures SuiteFields(s, p, suite) == SuiteFields(s, p + |EntryEvents(e)|, ApplyEntry(suite, e))
  {
    TestsEntryDecodes(s, p, suite, e.tests);
  }

  /** One written entry is decoded and replaces its own part of the suite. */
  lemma {:induction false} EntryDecodes(s: seq<Item>, p: nat, suite: TestSuite, e: Entry)
    requires Writable(e) && At(s, p, EntryEvents(e))
    ensures SuiteFields(s, p, suite) == SuiteFields(s, p + |EntryEvents(e)|, ApplyEntry(suite, e))
  {
    if e.DisplayEntry? {
      DisplayEntryStep(s, p, suite, e);
    } else if e.TableEntry? {
      TableEntryStep(s, p, suite, e);
    } else if e.FlagsEntry? {
      FlagsEntryStep(s, p, suite, e);
    } else {
      TestsEntryStep(s, p, suite, e);
    }
  }

  /** The written entries and the rest of the list, each in its place. */
  lemma {:induction false} EntriesEventsSplit(s: seq<Item>, p: nat, es: seq<Entry>) returns (q: nat)
    requires At(s, p, EntriesEvents(es)) && AllWritable(es) && es != []
    ensures q == p + |EntryEvents(es[0])|
    ensures At(s, p, EntryEvents(es[0])) && Writable(es[0])
    ensures At(s, q, EntriesEvents(es[1..])) && AllWritable(es[1..])
    ensures q + |EntriesEvents(es[1..])| == p + |EntriesEvents(es)|
  {
    var head, tail := EntryEvents(es[0]), EntriesEvents(es[1..]);
    assert EntriesEvents(es) == head + tail;
    q := AtSplitAt(s, p, head, tail);
    WritableSplit(es);
  }

  lemma {:induction false} WritableSplit(es: seq<Entry>)
    requires AllWritable(es) && es != []
    ensures Writable(es[0]) && AllWritable(es[1..])
  {
    assert Writable(es[0]);
    forall i | 0 <= i < |es[1..]| ensures Writable(es[1..][i]) {
      assert es[1..][i] == es[i + 1];
    }
  }

  /** The first written entry is decoded; the rest of the list follows it, from `q` on. */
  lemma {:induction false} FirstEntryDecodes(s: seq<Item>, p: nat, suite: TestSuite, es: seq<Entry>) returns (q: nat)
    requires At(s, p, EntriesEvents(es)) && AllWritable(es) && es != []
    ensures At(s, q, EntriesEvents(es[1..])) && AllWritable(es[1..])
    ensures q + |EntriesEvents(es[1..])| == p + |EntriesEvents(es)|
    ensures SuiteFields(s, p, suite) == SuiteFields(s, q, ApplyEntry(suite, es[0]))
    ensures ApplyEntries(suite, es) == ApplyEntries(ApplyEntry(suite, es[0]), es[1..])
  {
    q := EntriesEventsSplit(s, p, es);
    EntryDecodes(s, p, suite, es[0]);
  }

  /** Written entries are decoded one after another, each applied in turn. */
  lemma {:induction false} SuiteFieldsOverEntries(s: seq<Item>, p: nat, suite: TestSuite, es: seq<Entry>)
    requires At(s, p, EntriesEvents(es)) && AllWritable(es)
    ensures SuiteFields(s, p, suite) == SuiteFields(s, p + |EntriesEvents(es)|, ApplyEntries(suite, es))
  {
    var r, c := EntriesLoop(s, p, suite, es);
  }

  /**
   * The induction behind `SuiteFieldsOverEntries`, with the position `r` where
   * the entries end and the suite `c` they build named by out-parameters.
   */
  lemma {:induction false} EntriesLoop(s: seq<Item>, p: nat, suite: TestSuite, es: seq<Entry>) returns (r: nat, c: TestSuite)
    requires At(s, p, EntriesEvents(es)) && AllWritable(es)
    ensures r == p + |EntriesEvents(es)| && r <= |s|
    ensures c == ApplyEntries(suite, es)
    ensures SuiteFields(s, p, suite) == SuiteFields(s, r, c)
    decreases es
  {
    if es == [] {
      assert p + |EntriesEvents(es)| == p;
      assert ApplyEntries(suite, es) == suite;
      r, c := p, suite;
    } else {
      var q := FirstEntryDecodes(s, p, suite, es);
      r, c := EntriesLoop(s, q, ApplyEntry(suite, es[0]), es[1..]);
    }
  }

  /** Each field of the suite comes from the last entry with its key, or keeps its starting value. */
  lemma {:induction false} EntriesLastWins(suite: TestSuite, es: seq<Entry>)
    ensures ApplyEntries(suite, es).displayTable ==
              (match LastOf(es, DisplayKey) case Some(e) => e.path case None => suite.displayTable)
    ensures ApplyEntries(suite, es).table ==
              (match LastOf(es, TableKey) case Some(e) => e.table case None => suite.table)
    ensures ApplyEntries(suite, es).mode ==
              (match LastOf(es, FlagsKey) case Some(e) => e.mode case None => suite.mode)
    ensures ApplyEntries(suite, es).tests ==
              (match LastOf(es, TestsKey) case Some(e) => e.tests case None => suite.tests)
    decreases es
  {
    if es != [] {
      EntriesLastWins(ApplyEntry(suite, es[0]), es[1..]);
    }
  }

  // ---------------------------------------------------------------- document

  /** Around a completed key loop, the framing events finish the decode with one suite. */
  lemma {:induction false} DecodeFraming(s: seq<Item>, n: nat, suite: TestSuite)
    requires |s| == n + 6
    requires s[0] == Produced(StreamStart(Some(Utf8))) && s[1] == Produced(DocumentStart) && s[2] == Produced(MappingStart)
    requires s[4 + n] == Produced(DocumentEnd) && s[5 + n] == Produced(StreamEnd)
    requires SuiteFields(s, 3, DefaultSuite) == Done(suite, 4 + n)
    ensures DecodeEvents(s) == Done([suite], |s|)
  {
    assert StreamStartAt(s, 0) == Done((), 1);
    assert ExpectAt(s, 1, DocumentStartKind) == Done((), 2);
    assert ExpectAt(s, 2, MappingStartKind) == Done((), 3);
    assert ExpectAt(s, 4 + n, DocumentEndKind) == Done((), 5 + n);
    assert ExpectAt(s, 5 + n, StreamEndKind) == Done((), 6 + n);
  }

  /** Where the parts of a written document stand in its event stream. */
  lemma {:induction false} DocumentLayout(es: seq<Entry>)
    ensures var s := DocumentEvents(es); var n := |EntriesEvents(es)|;
            && |s| == n + 6 && At(s, 3, EntriesEvents(es))
            && s[0] == Produced(StreamStart(Some(Utf8))) && s[1] == Produced(DocumentStart) && s[2] == Produced(MappingStart)
            && s[3 + n] == Produced(MappingEnd) && s[4 + n] == Produced(DocumentEnd) && s[5 + n] == Produced(StreamEnd)
  {
    var s := DocumentEvents(es);
    var n := |EntriesEvents(es)|;
    var open := [Produced(StreamStart(Some(Utf8))), Produced(DocumentStart), Produced(MappingStart)];
    var close := [Produced(MappingEnd), Produced(DocumentEnd), Produced(StreamEnd)];
    assert s == open + EntriesEvents(es) + close;
    assert s[3..3 + n] == EntriesEvents(es);
    AtSlice(s, 3, EntriesEvents(es));
  }

  /** A whole document of written entries decodes to the one suite they describe. */
  lemma {:induction false} DecodeDocument(es: seq<Entry>)
    requires AllWritable(es)
    ensures DecodeEvents(DocumentEvents(es)) == Done([ApplyEntries(DefaultSuite, es)], |DocumentEvents(es)|)
  {
    DocumentLayout(es);
    SuiteFieldsEnds(DocumentEvents(es), 3, DefaultSuite, es);
    DecodeFraming(DocumentEvents(es), |EntriesEvents(es)|, ApplyEntries(DefaultSuite, es));
  }

  /** The entries written for a suite rebuild it from the default suite. */
  lemma {:induction false} SuiteEntriesRebuild(suite: TestSuite)
    requires AllUnpopulated(suite.tests)
    ensures AllWritable(SuiteEntries(suite))
    ensures ApplyEntries(DefaultSuite, SuiteEntries(suite)) == suite
  {
    var es := SuiteEntries(suite);
    var s1 := DefaultSuite.(displayTable := suite.displayTable);
    var s2 := s1.(table := suite.table);
    if suite.mode == Forward {
      assert es[1..][1..][1..] == [];
      assert ApplyEntries(s2, es[2..]) == suite;
    } else {
      var s3 := s2.(mode := suite.mode);
      assert es[1..][1..][1..][1..] == [];
      assert ApplyEntries(s3, es[3..]) == suite;
      assert ApplyEntries(s2, es[2..]) == suite;
    }
    assert ApplyEntries(s1, es[1..]) == suite;
  }

  /**
   * Every suite whose tests carry no attributes beyond input, expected and
   * xfail is written and decoded back to itself, in a list of one.
   */
  lemma {:induction false} SuiteRoundTrip(suite: TestSuite)
    requires AllUnpopulated(suite.tests)
    ensures DecodeEvents(SuiteEvents(suite)) == Done([suite], |SuiteEvents(suite)|)
  {
    SuiteEntriesRebuild(suite);
    DecodeDocument(SuiteEntries(suite));
  }

  // ---------------------------------------------------------------- errors

  /** An unknown scalar key stops the key loop with an error. */
  lemma {:induction false} UnknownKeyAt(s: seq<Item>, q: nat, suite: TestSuite, key: string)
    requires q < |s| && s[q] == ScalarItem(key)
    requires key != "display" && key != "table" && key != "flags" && key != "tests"
    ensures SuiteFields(s, q, suite) == Failed(UnknownField(key), q + 1)
  {
    assert SuiteFields(s, q, suite) == SuiteEntry(s, q + 1, key, suite);
  }

  /** A top-level key other than display, table, flags and tests is an error. */
  lemma {:induction false} UnknownKeyFails(s: seq<Item>, p: nat, suite: TestSuite, es: seq<Entry>, key: string)
    requires At(s, p, EntriesEvents(es)) && AllWritable(es)
    requires p + |EntriesEvents(es)| < |s| && s[p + |EntriesEvents(es)|] == ScalarItem(key)
    requires key != "display" && key != "table" && key != "flags" && key != "tests"
    ensures SuiteFields(s, p, suite) == Failed(UnknownField(key), p + |EntriesEvents(es)| + 1)
  {
    SuiteFieldsOverEntries(s, p, suite, es);
    UnknownKeyAt(s, p + |EntriesEvents(es)|, ApplyEntries(suite, es), key);
  }

  /** A key that is neither a scalar nor the closing MappingEnd stops the key loop with an error. */
  lemma {:induction false} NonScalarKeyAt(s: seq<Item>, q: nat, suite: TestSuite, e: Event)
    requires q < |s| && s[q] == Produced(e) && !e.Scalar? && !e.MappingEnd?
    ensures SuiteFields(s, q, suite) == Failed(Expected(WantScalar), q + 1)
  {
  }

  /** A top-level key that is not a scalar (and not the closing MappingEnd) is an error. */
  lemma {:induction false} NonScalarKeyFails(s: seq<Item>, p: nat, suite: TestSuite, es: seq<Entry>, e: Event)
    requires At(s, p, EntriesEvents(es)) && AllWritable(es)
    requires p + |EntriesEvents(es)| < |s| && s[p + |EntriesEvents(es)|] == Produced(e)
    requires !e.Scalar? && !e.MappingEnd?
    ensures SuiteFields(s, p, suite) == Failed(Expected(WantScalar), p + |EntriesEvents(es)| + 1)
  {
    SuiteFieldsOverEntries(s, p, suite, es);
    NonScalarKeyAt(s, p + |EntriesEvents(es)|, ApplyEntries(suite, es), e);
  }

  /** The table must be a mapping: a plain scalar under `table` is refused. */
  lemma {:induction false} ScalarTableRejected(s: seq<Item>, p: nat, suite: TestSuite, value: string)
    requires At(s, p, [ScalarItem("table"), ScalarItem(value)])
    ensures SuiteFields(s, p, suite) == Failed(Expected(WantMappingStart), p + 2)
  {
    AtIndex(s, p, [ScalarItem("table"), ScalarItem(value)], 0);
    AtIndex(s, p, [ScalarItem("table"), ScalarItem(value)], 1);
    assert SuiteFields(s, p, suite) == SuiteEntry(s, p + 1, "table", suite);
    assert SuiteEntry(s, p + 1, "table", suite) == TableField(s, p + 1, suite);
  }

  /** At MappingEnd, at the end of the input or at a producer error the key loop is complete. */
  lemma {:induction false} LoopEndAt(s: seq<Item>, q: nat, suite: TestSuite)
    requires q == |s| || (q < |s| && (s[q] == ProducerError || s[q] == Produced(MappingEnd)))
    ensures SuiteFields(s, q, suite) == Done(suite, After(s, q))
  {
  }

  /** The key loop stops at MappingEnd, and also, silently, when the input runs out or the producer fails. */
  lemma {:induction false} SuiteFieldsEnds(s: seq<Item>, p: nat, suite: TestSuite, es: seq<Entry>)
    requires At(s, p, EntriesEvents(es)) && AllWritable(es)
    requires var q := p + |EntriesEvents(es)|;
             q == |s| || s[q] == ProducerError || s[q] == Produced(MappingEnd)
    ensures SuiteFields(s, p, suite) == Done(ApplyEntries(suite, es), After(s, p + |EntriesEvents(es)|))
  {
    SuiteFieldsOverEntries(s, p, suite, es);
    LoopEndAt(s, p + |EntriesEvents(es)|, ApplyEntries(suite, es));
  }

  /** A stream that does not begin with a UTF-8 StreamStart is refused at once. */
  lemma {:induction false} DecodeNeedsUtf8(s: seq<Item>)
    requires !(0 < |s| && s[0] == Produced(StreamStart(Some(Utf8))))
    ensures DecodeEvents(s).Failed? && DecodeEvents(s).next == After(s, 0)
    ensures 0 < |s| && s[0].Produced? && s[0].event.StreamStart? ==>
              DecodeEvents(s).error == UnsupportedEncoding(s[0].event.encoding)
    ensures !(0 < |s| && s[0].Produced? && s[0].event.StreamStart?) ==>
              DecodeEvents(s).error == Expected(WantStreamStart)
  {
    var r := StreamStartAt(s, 0);
    assert r.Failed?;
  }

  // ---------------------------------------------------------------- success

  /** When the key loop completes it has consumed either the whole input or a MappingEnd or producer error. */
  lemma {:induction false} SuiteFieldsStops(s: seq<Item>, p: nat, suite: TestSuite)
    requires p <= |s|
    ensures var r := SuiteFields(s, p, suite);
            r.Done? ==> r.next == |s| || (p < r.next && (s[r.next - 1] == Produced(MappingEnd) || s[r.next - 1] == ProducerError))
    decreases |s| - p, 2
  {
    if p < |s| && s[p].Produced? && s[p].event.Scalar? {
      var key := s[p].event.value;
      assert SuiteFields(s, p, suite) == SuiteEntry(s, p + 1, key, suite);
      SuiteEntryStops(s, p + 1, key, suite);
    }
  }

  /** The same for the rest of the loop after a scalar key, whatever the key. */
  lemma {:induction false} SuiteEntryStops(s: seq<Item>, p: nat, key: string, suite: TestSuite)
    requires p <= |s|
    ensures LoopStopped(s, SuiteEntry(s, p, key, suite))
    decreases |s| - p, 1
  {
    if key == "display" {
      DisplayFieldStops(s, p, suite);
    } else if key == "table" {
      TableFieldStops(s, p, suite);
    } else if key == "flags" {
      FlagsFieldStops(s, p, suite);
    } else if key == "tests" {
      TestsFieldStops(s, p, suite);
    }
  }

  /** A completed loop ended at the end of the input, or just after a MappingEnd or a producer error. */
  predicate LoopStopped(s: seq<Item>, r: Parsed<TestSuite>) {
    r.Done? ==> r.next == |s| || (0 < r.next <= |s| && (s[r.next - 1] == Produced(MappingEnd) || s[r.next - 1] == ProducerError))
  }

  lemma {:induction false} DisplayFieldStops(s: seq<Item>, p: nat, suite: TestSuite)
    requires p <= |s|
    ensures LoopStopped(s, DisplayField(s, p, suite))
    decreases |s| - p, 0
  {
    var v := ScalarAt(s, p);
    if v.Done? {
      SuiteFieldsStops(s, v.next, suite.(displayTable := v.value));
    }
  }

  lemma {:induction false} TableFieldStops(s: seq<Item>, p: nat, suite: TestSuite)
    requires p <= |s|
    ensures LoopStopped(s, TableField(s, p, suite))
    decreases |s| - p, 0
  {
    var v := TableAt(s, p);
    if v.Done? {
      SuiteFieldsStops(s, v.next, suite.(table := v.value));
    }
  }

  lemma {:induction false} FlagsFieldStops(s: seq<Item>, p: nat, suite: TestSuite)
    requires p <= |s|
    ensures LoopStopped(s, FlagsField(s, p, suite))
    decreases |s| - p, 0
  {
    var v := FlagsAt(s, p);
    if v.Done? {
      SuiteFieldsStops(s, v.next, suite.(mode := v.value));
    }
  }

  lemma {:induction false} TestsFieldStops(s: seq<Item>, p: nat, suite: TestSuite)
    requires p <= |s|
    ensures LoopStopped(s, TestsField(s, p, suite))
    decreases |s| - p, 0
  {
    var v := TestsAt(s, p);
    if v.Done? {
      SuiteFieldsStops(s, v.next, suite.(tests := v.value));
    }
  }

  /**
   * A successful decode has read a UTF-8 StreamStart, DocumentStart and
   * MappingStart, then the entries, a MappingEnd (or a producer error that
   * ended the key loop), DocumentEnd and StreamEnd.
   */
  lemma {:induction false} DecodedFraming(s: seq<Item>)
    ensures var r := DecodeEvents(s);
            r.Done? ==>
              && 6 <= r.next
              && s[0] == Produced(StreamStart(Some(Utf8))) && s[1] == Produced(DocumentStart) && s[2] == Produced(MappingStart)
              && (s[r.next - 3] == Produced(MappingEnd) || s[r.next - 3] == ProducerError)
              && s[r.next - 2] == Produced(DocumentEnd) && s[r.next - 1] == Produced(StreamEnd)
  {
    var r := DecodeEvents(s);
    if r.Done? {
      assert 3 <= |s|;
      var f := SuiteFields(s, 3, DefaultSuite);
      SuiteFieldsStops(s, 3, DefaultSuite);
      assert f.Done? && f.next < |s|;
      assert r.next == f.next + 2;
    }
  }

  /** The key loop keeps the suite's tests free of the attributes the decoder never reads. */
  lemma {:induction false} SuiteFieldsUnpopulated(s: seq<Item>, p: nat, suite: TestSuite)
    requires p <= |s| && AllUnpopulated(suite.tests)
    ensures SuiteFields(s, p, suite).Done? ==> AllUnpopulated(SuiteFields(s, p, suite).value.tests)
    decreases |s| - p
  {
    if p < |s| && s[p].Produced? && s[p].event.Scalar? {
      var key := s[p].event.value;
      assert SuiteFields(s, p, suite) == SuiteEntry(s, p + 1, key, suite);
      if key == "display" {
        var d := ScalarAt(s, p + 1);
        assert SuiteFields(s, p, suite) == SuiteEntry(s, p + 1, "display", suite);
        assert SuiteEntry(s, p + 1, "display", suite) == DisplayField(s, p + 1, suite);
        if d.Done? { SuiteFieldsUnpopulated(s, d.next, suite.(displayTable := d.value)); }
      } else if key == "table" {
        var t := TableAt(s, p + 1);
        assert SuiteFields(s, p, suite) == SuiteEntry(s, p + 1, "table", suite);
        assert SuiteEntry(s, p + 1, "table", suite) == TableField(s, p + 1, suite);
        if t.Done? { SuiteFieldsUnpopulated(s, t.next, suite.(table := t.value)); }
      } else if key == "flags" {
        var m := FlagsAt(s, p + 1);
        assert SuiteFields(s, p, suite) == SuiteEntry(s, p + 1, "flags", suite);
        assert SuiteEntry(s, p + 1, "flags", suite) == FlagsField(s, p + 1, suite);
        if m.Done? { SuiteFieldsUnpopulated(s, m.next, suite.(mode := m.value)); }
      } else if key == "tests" {
        var ts := TestsAt(s, p + 1);
        assert SuiteFields(s, p, suite) == SuiteEntry(s, p + 1, "tests", suite);
        assert SuiteEntry(s, p + 1, "tests", suite) == TestsField(s, p + 1, suite);
        if ts.Done? {
          var start := ExpectAt(s, p + 1, SequenceStartKind);
          TestListExtends(s, start.next, []);
          SuiteFieldsUnpopulated(s, ts.next, suite.(tests := ts.value));
        }
      }
    }
  }

  /**
   * Every decoded suite holds tests the serializer writes with `input`,
   * `expected` and, when set, `xfail` only.
   */
  lemma {:induction false} DecodedTestsUnpopulated(s: seq<Item>)
    ensures DecodeEvents(s).Done? ==> AllUnpopulated(DecodeEvents(s).value[0].tests)
  {
    if DecodeEvents(s).Done? {
      SuiteFieldsUnpopulated(s, 3, DefaultSuite);
    }
  }
}
