/**
 * What parse_test and parse_tests promise: the shapes of a test they accept,
 * the test built from each, the errors of the other shapes, and that a
 * decoded test never carries the attributes the decoder does not read.
 */
module TestProperties {
  import opened Wrappers
  import opened Events
  import opened Suite
  import opened Readers
  import opened Fields
  import opened Emit

  /** The xfail value left by a run of `xfail: <value>` entries: the last one decides. */
  function LastXfail(forms: seq<XfailForm>, xfail: bool): bool {
    if forms == [] then xfail else ReadXfailValue(forms[|forms| - 1].text)
  }

  /** Each accepted form decodes to `read_xfail_value` of its text, consuming exactly its events. */
  lemma {:induction false} XfailFormDecodes(s: seq<Item>, p: nat, f: XfailForm)
    requires At(s, p, XfailValueEvents(f)) && AcceptedXfailForm(f)
    ensures XfailAt(s, p) == Done(ReadXfailValue(f.text), p + |XfailValueEvents(f)|)
  {
    var b := XfailValueEvents(f);
    AtIndex(s, p, b, 0);
    if f.Directional? {
      AtIndex(s, p, b, 1);
      AtIndex(s, p, b, 2);
      AtIndex(s, p, b, 3);
    }
  }

  // ---------------------------------------------------------------- attributes

  /** Each `xfail` entry replaces the value so far, so the last one wins. */
  lemma {:induction false} XfailEntriesLastWins(s: seq<Item>, p: nat, xfail: bool, forms: seq<XfailForm>)
    requires At(s, p, XfailEntries(forms))
    requires AcceptedXfailForms(forms)
    ensures TestAttributes(s, p, xfail) == TestAttributes(s, p + |XfailEntries(forms)|, LastXfail(forms, xfail))
  {
    var q, v := XfailRun(s, p, xfail, forms);
  }

  /**
   * The induction behind `XfailEntriesLastWins`, with the position `q` where
   * the entries end and the value `v` they leave named by out-parameters.
   */
  lemma {:induction false} XfailRun(s: seq<Item>, p: nat, xfail: bool, forms: seq<XfailForm>) returns (q: nat, v: bool)
    requires At(s, p, XfailEntries(forms))
    requires AcceptedXfailForms(forms)
    ensures q == p + |XfailEntries(forms)| && v == LastXfail(forms, xfail)
    ensures TestAttributes(s, p, xfail) == TestAttributes(s, q, v)
    decreases forms
  {
    if forms == [] {
      q, v := p, xfail;
    } else {
      var head, rest := [ScalarItem("xfail")] + XfailValueEvents(forms[0]), XfailEntries(forms[1..]);
      assert XfailEntries(forms) == head + rest;
      var k := AtSplitAt(s, p, head, rest);
      assert AcceptedXfailForm(forms[0]);
      var x := ReadXfailValue(forms[0].text);
      var r := XfailEntryStep(s, p, xfail, forms[0]);
      q, v := XfailRun(s, r, x, forms[1..]);
      if |forms| > 1 {
        assert forms[1..][|forms[1..]| - 1] == forms[|forms| - 1];
      }
    }
  }

  /** One `xfail: <form>` entry: its events are consumed and its value replaces the one so far. */
  lemma {:induction false} XfailEntryStep(s: seq<Item>, p: nat, xfail: bool, f: XfailForm) returns (r: nat)
    requires At(s, p, [ScalarItem("xfail")] + XfailValueEvents(f)) && AcceptedXfailForm(f)
    ensures r == p + 1 + |XfailValueEvents(f)|
    ensures TestAttributes(s, p, xfail) == TestAttributes(s, r, ReadXfailValue(f.text))
  {
    var k := AtSplitAt(s, p, [ScalarItem("xfail")], XfailValueEvents(f));
    AtIndex(s, p, [ScalarItem("xfail")], 0);
    XfailFormDecodes(s, k, f);
    r := k + |XfailValueEvents(f)|;
  }

  /** The attribute mapping closes at MappingEnd with the last xfail value. */
  lemma {:induction false} AttributesEnd(s: seq<Item>, p: nat, xfail: bool, forms: seq<XfailForm>)
    requires AcceptedXfailForms(forms)
    requires At(s, p, XfailEntries(forms) + [Produced(MappingEnd)])
    ensures TestAttributes(s, p, xfail) == Done(LastXfail(forms, xfail), p + |XfailEntries(forms)| + 1)
  {
    AtSplit(s, p, XfailEntries(forms), [Produced(MappingEnd)]);
    AtIndex(s, p + |XfailEntries(forms)|, [Produced(MappingEnd)], 0);
    XfailEntriesLastWins(s, p, xfail, forms);
  }

  /** The attribute loop also completes when the input runs out or the producer fails after the entries. */
  lemma {:induction false} AttributesStop(s: seq<Item>, p: nat, xfail: bool, forms: seq<XfailForm>)
    requires AcceptedXfailForms(forms)
    requires At(s, p, XfailEntries(forms))
    requires p + |XfailEntries(forms)| == |s| || s[p + |XfailEntries(forms)|] == ProducerError || s[p + |XfailEntries(forms)|] == Produced(MappingEnd)
    ensures TestAttributes(s, p, xfail) == Done(LastXfail(forms, xfail), After(s, p + |XfailEntries(forms)|))
  {
    XfailEntriesLastWins(s, p, xfail, forms);
  }

  /** Any attribute other than `xfail`, or any non-scalar key, is an error. */
  lemma {:induction false} AttributesRejectKey(s: seq<Item>, p: nat, xfail: bool, forms: seq<XfailForm>, e: Event)
    requires AcceptedXfailForms(forms)
    requires At(s, p, XfailEntries(forms) + [Produced(e)])
    requires e != Scalar("xfail") && !e.MappingEnd?
    ensures TestAttributes(s, p, xfail) == Failed(Expected(WantScalarOrMappingEnd), p + |XfailEntries(forms)| + 1)
  {
    AtSplit(s, p, XfailEntries(forms), [Produced(e)]);
    AtIndex(s, p + |XfailEntries(forms)|, [Produced(e)], 0);
    XfailEntriesLastWins(s, p, xfail, forms);
  }

  // ---------------------------------------------------------------- one test

  /** `[input, expected]` decodes to a test that is not an expected failure. */
  lemma {:induction false} TestPlain(s: seq<Item>, p: nat, input: string, expected: string)
    requires At(s, p, [ScalarItem(input), ScalarItem(expected), Produced(SequenceEnd)])
    ensures TestAt(s, p) == Done(NewTest(input, expected, false), p + 3)
  {
    var b := [ScalarItem(input), ScalarItem(expected), Produced(SequenceEnd)];
    AtIndex(s, p, b, 0);
    AtIndex(s, p, b, 1);
    AtIndex(s, p, b, 2);
  }

  /** Where the parts of a test with an attribute mapping stand. */
  lemma {:induction false} AttributeTestLayout(s: seq<Item>, p: nat, input: string, expected: string, forms: seq<XfailForm>)
    requires At(s, p, [ScalarItem(input), ScalarItem(expected), Produced(MappingStart)]
                      + XfailEntries(forms) + [Produced(MappingEnd)])
    ensures p + 2 < |s| && s[p] == ScalarItem(input) && s[p + 1] == ScalarItem(expected) && s[p + 2] == Produced(MappingStart)
    ensures At(s, p + 3, XfailEntries(forms) + [Produced(MappingEnd)])
  {
    var head := [ScalarItem(input), ScalarItem(expected), Produced(MappingStart)];
    var body := XfailEntries(forms) + [Produced(MappingEnd)];
    assert head + XfailEntries(forms) + [Produced(MappingEnd)] == head + body;
    AtSplit(s, p, head, body);
    AtIndex(s, p, head, 0);
    AtIndex(s, p, head, 1);
    AtIndex(s, p, head, 2);
  }

  /** Once the attribute mapping is decoded, the test needs its closing SequenceEnd. */
  lemma {:induction false} TestAfterAttributes(s: seq<Item>, p: nat, input: string, expected: string, xfail: bool, q: nat)
    requires p + 2 < |s| && s[p] == ScalarItem(input) && s[p + 1] == ScalarItem(expected) && s[p + 2] == Produced(MappingStart)
    requires TestAttributes(s, p + 3, false) == Done(xfail, q)
    ensures q < |s| && s[q] == Produced(SequenceEnd) ==> TestAt(s, p) == Done(NewTest(input, expected, xfail), q + 1)
    ensures !(q < |s| && s[q] == Produced(SequenceEnd)) ==> TestAt(s, p) == Failed(Expected(WantSequenceEnd), After(s, q))
  {
    assert ScalarAt(s, p) == Done(input, p + 1);
    assert ScalarAt(s, p + 1) == Done(expected, p + 2);
  }

  /** `[input, expected, {xfail: v, ...}]` decodes to a test whose xfail is the last value given. */
  lemma {:induction false} TestWithAttributes(s: seq<Item>, p: nat, input: string, expected: string, forms: seq<XfailForm>)
    requires AcceptedXfailForms(forms)
    requires At(s, p, [ScalarItem(input), ScalarItem(expected), Produced(MappingStart)]
                      + XfailEntries(forms) + [Produced(MappingEnd)])
    requires p + |XfailEntries(forms)| + 4 < |s| && s[p + |XfailEntries(forms)| + 4] == Produced(SequenceEnd)
    ensures TestAt(s, p) == Done(NewTest(input, expected, LastXfail(forms, false)), p + |XfailEntries(forms)| + 5)
  {
    var n := |XfailEntries(forms)|;
    AttributeTestLayout(s, p, input, expected, forms);
    AttributesEnd(s, p + 3, false, forms);
    TestAfterAttributes(s, p, input, expected, LastXfail(forms, false), p + n + 4);
  }

  /** Input and expected text must both be scalars. */
  lemma {:induction false} TestNeedsScalars(s: seq<Item>, p: nat)
    requires p <= |s|
    ensures !(p < |s| && s[p].Produced? && s[p].event.Scalar?) ==>
              TestAt(s, p) == Failed(Expected(WantScalar), After(s, p))
    ensures p < |s| && s[p].Produced? && s[p].event.Scalar? && !(p + 1 < |s| && s[p + 1].Produced? && s[p + 1].event.Scalar?) ==>
              TestAt(s, p) == Failed(Expected(WantScalar), After(s, p + 1))
  {
  }

  /** After the two scalars only SequenceEnd or an attribute mapping may follow. */
  lemma {:induction false} TestRejectsThird(s: seq<Item>, p: nat, input: string, expected: string)
    requires At(s, p, [ScalarItem(input), ScalarItem(expected)])
    requires !(p + 2 < |s| && (s[p + 2] == Produced(SequenceEnd) || s[p + 2] == Produced(MappingStart)))
    ensures TestAt(s, p) == Failed(Expected(WantSequenceEndOrMappingStart), After(s, p + 2))
  {
    AtIndex(s, p, [ScalarItem(input), ScalarItem(expected)], 0);
    AtIndex(s, p, [ScalarItem(input), ScalarItem(expected)], 1);
  }

  /** The attribute mapping must be the last element of the test. */
  lemma {:induction false} TestNeedsSequenceEnd(s: seq<Item>, p: nat, input: string, expected: string, forms: seq<XfailForm>)
    requires AcceptedXfailForms(forms)
    requires At(s, p, [ScalarItem(input), ScalarItem(expected), Produced(MappingStart)]
                      + XfailEntries(forms) + [Produced(MappingEnd)])
    requires var q := p + |XfailEntries(forms)| + 4; !(q < |s| && s[q] == Produced(SequenceEnd))
    ensures TestAt(s, p) == Failed(Expected(WantSequenceEnd), After(s, p + |XfailEntries(forms)| + 4))
  {
    AttributeTestLayout(s, p, input, expected, forms);
    AttributesEnd(s, p + 3, false, forms);
    TestAfterAttributes(s, p, input, expected, LastXfail(forms, false), p + |XfailEntries(forms)| + 4);
  }

  /**
   * A decoded test never has positions, a cursor, modes or a maximum length,
   * so the serializer writes exactly `input`, `expected`, and `xfail` when it
   * is set.
   */
  lemma {:induction false} DecodedTestFields(s: seq<Item>, p: nat)
    requires p <= |s|
    ensures TestAt(s, p).Done? ==> Unpopulated(TestAt(s, p).value)
    ensures TestAt(s, p).Done? ==> forall f :: f in SerializedTestFields(TestAt(s, p).value) <==>
              f == InputField || f == ExpectedField || (f == XfailField && TestAt(s, p).value.xfail)
  {
    var r := TestAt(s, p);
    if r.Done? {
      assert Unpopulated(r.value);
      forall f ensures f in SerializedTestFields(r.value) <==>
                         f == InputField || f == ExpectedField || (f == XfailField && r.value.xfail) {
        assert f in SerializedTestFields(r.value) <==> !Skipped(r.value, f);
      }
    }
  }

  /** A test written in the input shape decodes to itself. */
  lemma {:induction false} CaseRoundTrip(s: seq<Item>, p: nat, t: Test)
    requires Unpopulated(t) && At(s, p, CaseEvents(t))
    ensures TestAt(s, p) == Done(t, p + |CaseEvents(t)|)
  {
    assert NewTest(t.input, t.expected, t.xfail) == t;
    if t.xfail {
      var forms := [Bare("true")];
      assert XfailEntries(forms[1..]) == [];
      assert XfailEntries(forms) == [ScalarItem("xfail"), ScalarItem("true")];
      assert LastXfail(forms, false);
      var b := [ScalarItem(t.input), ScalarItem(t.expected), Produced(MappingStart)]
               + XfailEntries(forms) + [Produced(MappingEnd)];
      assert CaseEvents(t) == b + [Produced(SequenceEnd)];
      AtSplit(s, p, b, [Produced(SequenceEnd)]);
      AtIndex(s, p + |b|, [Produced(SequenceEnd)], 0);
      assert AcceptedXfailForms(forms);
      TestWithAttributes(s, p, t.input, t.expected, forms);
    } else {
      assert CaseEvents(t) == [ScalarItem(t.input), ScalarItem(t.expected), Produced(SequenceEnd)];
      TestPlain(s, p, t.input, t.expected);
    }
  }

  // ---------------------------------------------------------------- test list

  /** Decoding a list only appends to the tests already decoded, and appends only unpopulated tests. */
  lemma {:induction false} TestListExtends(s: seq<Item>, p: nat, tests: seq<Test>)
    requires p <= |s|
    ensures TestList(s, p, tests).Done? ==> tests <= TestList(s, p, tests).value
    ensures TestList(s, p, tests).Done? && AllUnpopulated(tests) ==> AllUnpopulated(TestList(s, p, tests).value)
    decreases |s| - p
  {
    if p < |s| && s[p].Produced? && s[p].event.SequenceStart? {
      var t := TestAt(s, p + 1);
      assert TestList(s, p, tests) == TestListItem(s, p + 1, tests);
      if t.Done? {
        DecodedTestFields(s, p + 1);
        var more := tests + [t.value];
        TestListExtends(s, t.next, more);
        if TestList(s, p, tests).Done? && AllUnpopulated(tests) {
          assert AllUnpopulated(more) by {
            forall i | 0 <= i < |more| ensures Unpopulated(more[i]) {
              if i < |tests| { assert more[i] == tests[i]; }
            }
          }
        }
      }
    }
  }

  /** One written test in the list is decoded and appended. */
  lemma {:induction false} TestListStep(s: seq<Item>, p: nat, tests: seq<Test>, t: Test)
    requires At(s, p, [Produced(SequenceStart)] + CaseEvents(t)) && Unpopulated(t)
    ensures TestList(s, p, tests) == TestList(s, p + 1 + |CaseEvents(t)|, tests + [t])
  {
    AtSplit(s, p, [Produced(SequenceStart)], CaseEvents(t));
    AtIndex(s, p, [Produced(SequenceStart)], 0);
    CaseRoundTrip(s, p + 1, t);
    assert TestList(s, p, tests) == TestListItem(s, p + 1, tests);
  }

  /** The first test of a written list and the rest of the list, each in its place. */
  lemma {:induction false} ListEventsSplit(s: seq<Item>, p: nat, ts: seq<Test>) returns (q: nat)
    requires At(s, p, ListEvents(ts)) && AllUnpopulated(ts) && ts != []
    ensures q == p + 1 + |CaseEvents(ts[0])|
    ensures At(s, p, [Produced(SequenceStart)] + CaseEvents(ts[0])) && Unpopulated(ts[0])
    ensures At(s, q, ListEvents(ts[1..])) && AllUnpopulated(ts[1..])
    ensures q + |ListEvents(ts[1..])| == p + |ListEvents(ts)|
  {
    var head := [Produced(SequenceStart)] + CaseEvents(ts[0]);
    assert ListEvents(ts) == head + ListEvents(ts[1..]);
    q := AtSplitAt(s, p, head, ListEvents(ts[1..]));
    UnpopulatedSplit(ts);
  }

  lemma {:induction false} UnpopulatedSplit(ts: seq<Test>)
    requires AllUnpopulated(ts) && ts != []
    ensures Unpopulated(ts[0]) && AllUnpopulated(ts[1..])
  {
    assert Unpopulated(ts[0]);
    forall i | 0 <= i < |ts[1..]| ensures Unpopulated(ts[1..][i]) {
      assert ts[1..][i] == ts[i + 1];
    }
  }

  /** The first test of a written list is decoded; the rest of the list follows it, from `q` on. */
  lemma {:induction false} FirstCaseDecodes(s: seq<Item>, p: nat, tests: seq<Test>, ts: seq<Test>) returns (q: nat)
    requires At(s, p, ListEvents(ts)) && AllUnpopulated(ts) && ts != []
    ensures At(s, q, ListEvents(ts[1..])) && AllUnpopulated(ts[1..])
    ensures q + |ListEvents(ts[1..])| == p + |ListEvents(ts)|
    ensures TestList(s, p, tests) == TestList(s, q, tests + [ts[0]])
    ensures tests + [ts[0]] + ts[1..] == tests + ts
  {
    q := ListEventsSplit(s, p, ts);
    TestListStep(s, p, tests, ts[0]);
    AppendFirst(tests, ts);
  }

  /** Written tests are decoded one after another and appended in order. */
  lemma {:induction false} TestListOverCases(s: seq<Item>, p: nat, tests: seq<Test>, ts: seq<Test>)
    requires At(s, p, ListEvents(ts)) && AllUnpopulated(ts)
    ensures TestList(s, p, tests) == TestList(s, p + |ListEvents(ts)|, tests + ts)
  {
    var r, c := CasesLoop(s, p, tests, ts);
  }

  /**
   * The induction behind `TestListOverCases`, with the position `r` where the
   * tests end and the list `c` they build named by out-parameters.
   */
  lemma {:induction false} CasesLoop(s: seq<Item>, p: nat, tests: seq<Test>, ts: seq<Test>) returns (r: nat, c: seq<Test>)
    requires At(s, p, ListEvents(ts)) && AllUnpopulated(ts)
    ensures r == p + |ListEvents(ts)| && r <= |s|
    ensures c == tests + ts
    ensures TestList(s, p, tests) == TestList(s, r, c)
    decreases ts
  {
    if ts == [] {
      assert p + |ListEvents(ts)| == p;
      assert tests + ts == tests;
      r, c := p, tests;
    } else {
      var q := FirstCaseDecodes(s, p, tests, ts);
      r, c := CasesLoop(s, q, tests + [ts[0]], ts[1..]);
    }
  }

  /** parse_tests needs a SequenceStart first. */
  lemma {:induction false} TestsNeedSequenceStart(s: seq<Item>, p: nat)
    requires p <= |s|
    ensures !(p < |s| && s[p] == Produced(SequenceStart)) ==>
              TestsAt(s, p) == Failed(Expected(WantSequenceStart), After(s, p))
  {
  }

  /** parse_tests decodes written tests back to themselves. */
  lemma {:induction false} TestsRoundTrip(s: seq<Item>, p: nat, ts: seq<Test>)
    requires At(s, p, TestsEvents(ts)) && AllUnpopulated(ts)
    ensures TestsAt(s, p) == Done(ts, p + |TestsEvents(ts)|)
  {
    AtSplit(s, p, [Produced(SequenceStart)] + ListEvents(ts), [Produced(SequenceEnd)]);
    AtSplit(s, p, [Produced(SequenceStart)], ListEvents(ts));
    AtIndex(s, p, [Produced(SequenceStart)], 0);
    AtIndex(s, p + 1 + |ListEvents(ts)|, [Produced(SequenceEnd)], 0);
    TestListOverCases(s, p + 1, [], ts);
    assert [] + ts == ts;
    ListStopsAt(s, p + 1 + |ListEvents(ts)|, ts);
  }

  /** An element of the list that is not itself a sequence is an error. */
  lemma {:induction false} TestListRejects(s: seq<Item>, p: nat, tests: seq<Test>, ts: seq<Test>, e: Event)
    requires At(s, p, ListEvents(ts)) && AllUnpopulated(ts)
    requires p + |ListEvents(ts)| < |s| && s[p + |ListEvents(ts)|] == Produced(e)
    requires !e.SequenceStart? && !e.SequenceEnd?
    ensures TestList(s, p, tests) == Failed(Expected(WantSequenceStart), p + |ListEvents(ts)| + 1)
  {
    TestListOverCases(s, p, tests, ts);
    ListStopsAt(s, p + |ListEvents(ts)|, tests + ts);
  }

  /** At an element that is not a sequence, or at the end of the list, the list loop stops. */
  lemma {:induction false} ListStopsAt(s: seq<Item>, q: nat, tests: seq<Test>)
    requires q <= |s|
    ensures q == |s| || s[q] == ProducerError || s[q] == Produced(SequenceEnd) ==> TestList(s, q, tests) == Done(tests, After(s, q))
    ensures q < |s| && s[q].Produced? && !s[q].event.SequenceStart? && !s[q].event.SequenceEnd? ==>
              TestList(s, q, tests) == Failed(Expected(WantSequenceStart), q + 1)
  {
  }

  /** The list is complete at SequenceEnd, and also when the input runs out or the producer fails. */
  lemma {:induction false} TestListEnds(s: seq<Item>, p: nat, tests: seq<Test>, ts: seq<Test>)
    requires At(s, p, ListEvents(ts)) && AllUnpopulated(ts)
    requires var q := p + |ListEvents(ts)|;
             q == |s| || s[q] == ProducerError || s[q] == Produced(SequenceEnd)
    ensures TestList(s, p, tests) == Done(tests + ts, After(s, p + |ListEvents(ts)|))
  {
    TestListOverCases(s, p, tests, ts);
    ListStopsAt(s, p + |ListEvents(ts)|, tests + ts);
  }
}
