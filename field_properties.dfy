/**
 * What parse_table, parse_flags, read_xfail_value and parse_xfail_value
 * promise: the input shapes they accept, the value they build from each, and
 * the error every other shape draws.
 */
module FieldProperties {
  import opened Wrappers
  import opened Events
  import opened Suite
  import opened Readers
  import opened Fields
  import opened Emit

  // ---------------------------------------------------------------- grade

  lemma {:induction false} DecimalTextValue(n: nat)
    ensures DigitsValue(DecimalText(n)) == n
  {
    if n >= 10 {
      var text := DecimalText(n);
      assert text[..|text| - 1] == DecimalText(n / 10);
      DecimalTextValue(n / 10);
    }
  }

  /**
   * A grade written in decimal, with or without a leading '+', parses to its
   * value exactly when that value fits in a `u8`.
   */
  lemma {:induction false} ParseDecimal(n: nat)
    ensures ParseU8(DecimalText(n)) == if n < 0x100 then Some(n as u8) else None
    ensures ParseU8("+" + DecimalText(n)) == ParseU8(DecimalText(n))
  {
    DecimalTextValue(n);
    var text := DecimalText(n);
    assert IsDigit(text[0]);
    assert ("+" + text)[1..] == text;
  }

  /** Every grade the model can hold is written back as text the decoder accepts. */
  lemma {:induction false} GradeRoundTrip(g: u8)
    ensures ParseU8(DecimalText(g as nat)) == Some(g)
  {
    ParseDecimal(g as nat);
  }

  // ---------------------------------------------------------------- table

  /** The first accepted pair of a written run is consumed as two scalars and updates its own field. */
  lemma {:induction false} TableEntryStep(s: seq<Item>, p: nat, t: Table, kvs: seq<(string, string)>)
    requires At(s, p, PairEvents(kvs)) && AcceptedTableEntries(kvs) && kvs != []
    ensures AcceptedTableEntry(kvs[0]) && AcceptedTableEntries(kvs[1..]) && At(s, p + 2, PairEvents(kvs[1..]))
    ensures TableEntries(s, p, t) == TableEntries(s, p + 2, SetTableField(t, kvs[0]))
    ensures ApplyTableEntries(t, kvs) == ApplyTableEntries(SetTableField(t, kvs[0]), kvs[1..])
  {
    var b, rest := [ScalarItem(kvs[0].0), ScalarItem(kvs[0].1)], PairEvents(kvs[1..]);
    assert PairEvents(kvs) == b + rest;
    var q := AtSplitAt(s, p, b, rest);
    AtIndex(s, p, b, 0);
    AtIndex(s, p, b, 1);
    AcceptedSplit(kvs);
  }

  lemma {:induction false} AcceptedSplit(kvs: seq<(string, string)>)
    requires AcceptedTableEntries(kvs) && kvs != []
    ensures AcceptedTableEntry(kvs[0]) && AcceptedTableEntries(kvs[1..])
  {
    assert AcceptedTableEntry(kvs[0]);
    forall i | 0 <= i < |kvs[1..]| ensures AcceptedTableEntry(kvs[1..][i]) {
      assert kvs[1..][i] == kvs[i + 1];
    }
  }

  /** Accepted key/value pairs are consumed two scalars at a time, each updating its own field. */
  lemma {:induction false} TableEntriesOverPairs(s: seq<Item>, p: nat, t: Table, kvs: seq<(string, string)>)
    requires At(s, p, PairEvents(kvs)) && AcceptedTableEntries(kvs)
    ensures TableEntries(s, p, t) == TableEntries(s, p + 2 * |kvs|, ApplyTableEntries(t, kvs))
  {
    var r, u := PairsLoop(s, p, t, kvs);
  }

  /**
   * The induction behind `TableEntriesOverPairs`, with the position `r` where
   * the pairs end and the table `u` they build named by out-parameters.
   */
  lemma {:induction false} PairsLoop(s: seq<Item>, p: nat, t: Table, kvs: seq<(string, string)>) returns (r: nat, u: Table)
    requires At(s, p, PairEvents(kvs)) && AcceptedTableEntries(kvs)
    ensures r == p + 2 * |kvs| && r <= |s|
    ensures u == ApplyTableEntries(t, kvs)
    ensures TableEntries(s, p, t) == TableEntries(s, r, u)
    decreases kvs
  {
    if kvs == [] {
      assert ApplyTableEntries(t, kvs) == t;
      r, u := p, t;
    } else {
      TableEntryStep(s, p, t, kvs);
      r, u := PairsLoop(s, p + 2, SetTableField(t, kvs[0]), kvs[1..]);
    }
  }

  /**
   * A repeated key overwrites the earlier value: each field of the result is
   * the value of the last pair with its key, or the starting value if there
   * is none.
   */
  lemma {:induction false} LastEntryWins(t: Table, kvs: seq<(string, string)>)
    requires AcceptedTableEntries(kvs)
    ensures ApplyTableEntries(t, kvs).language == LastValue(kvs, "language").GetOr(t.language)
    ensures ApplyTableEntries(t, kvs).system == LastValue(kvs, "system").GetOr(t.system)
    ensures ApplyTableEntries(t, kvs).path == LastValue(kvs, "__assert-match").GetOr(t.path)
    ensures LastValue(kvs, "grade").None? ==> ApplyTableEntries(t, kvs).grade == t.grade
    ensures LastValue(kvs, "grade").Some? ==>
              ParseU8(LastValue(kvs, "grade").value) == Some(ApplyTableEntries(t, kvs).grade)
    decreases kvs
  {
    if kvs != [] {
      AcceptedSplit(kvs);
      LastEntryWins(SetTableField(t, kvs[0]), kvs[1..]);
    }
  }

  /** A mapping of accepted pairs decodes to the default table updated by each pair in turn. */
  lemma {:induction false} TableDecodesPairs(s: seq<Item>, p: nat, kvs: seq<(string, string)>)
    requires At(s, p, MappingEvents(kvs)) && AcceptedTableEntries(kvs)
    ensures TableAt(s, p) == Done(ApplyTableEntries(DefaultTable, kvs), p + |MappingEvents(kvs)|)
  {
    MappingLayout(s, p, kvs);
    assert TableAt(s, p) == TableEntries(s, p + 1, DefaultTable);
    TableEntriesOverPairs(s, p + 1, DefaultTable, kvs);
  }

  /** Where the opening event, the pairs and the closing event of a written mapping stand. */
  lemma {:induction false} MappingLayout(s: seq<Item>, p: nat, kvs: seq<(string, string)>)
    requires At(s, p, MappingEvents(kvs))
    ensures |MappingEvents(kvs)| == 2 * |kvs| + 2
    ensures s[p] == Produced(MappingStart) && At(s, p + 1, PairEvents(kvs))
    ensures s[p + 1 + 2 * |kvs|] == Produced(MappingEnd)
  {
    var body := PairEvents(kvs);
    assert MappingEvents(kvs) == [Produced(MappingStart)] + body + [Produced(MappingEnd)];
    var q := AtSplitAt(s, p, [Produced(MappingStart)] + body, [Produced(MappingEnd)]);
    var r := AtSplitAt(s, p, [Produced(MappingStart)], body);
    AtIndex(s, p, [Produced(MappingStart)], 0);
    AtIndex(s, q, [Produced(MappingEnd)], 0);
  }

  /** After accepted pairs, a scalar key parse_table does not know fails. */
  lemma {:induction false} TableRejectsUnknownKey(s: seq<Item>, p: nat, t: Table, kvs: seq<(string, string)>, key: string)
    requires At(s, p, PairEvents(kvs) + [ScalarItem(key)]) && AcceptedTableEntries(kvs) && !IsTableKey(key)
    ensures TableEntries(s, p, t) == Failed(UnknownTableAttribute(key), p + 2 * |kvs| + 1)
  {
    var q := AtSplitAt(s, p, PairEvents(kvs), [ScalarItem(key)]);
    AtIndex(s, q, [ScalarItem(key)], 0);
    var r, u := PairsLoop(s, p, t, kvs);
  }

  /** After accepted pairs, a `grade` whose text is not a `u8` fails. */
  lemma {:induction false} TableRejectsGrade(s: seq<Item>, p: nat, t: Table, kvs: seq<(string, string)>, text: string)
    requires At(s, p, PairEvents(kvs) + [ScalarItem("grade"), ScalarItem(text)]) && AcceptedTableEntries(kvs)
    requires ParseU8(text).None?
    ensures TableEntries(s, p, t) == Failed(InvalidGrade(text), p + 2 * |kvs| + 2)
  {
    var b := [ScalarItem("grade"), ScalarItem(text)];
    var q := AtSplitAt(s, p, PairEvents(kvs), b);
    AtIndex(s, q, b, 0);
    AtIndex(s, q, b, 1);
    var r, u := PairsLoop(s, p, t, kvs);
    assert ScalarAt(s, r + 1) == Done(text, r + 2);
  }

  /** After accepted pairs, an event that is neither a scalar key nor MappingEnd fails. */
  lemma {:induction false} TableRejectsEvent(s: seq<Item>, p: nat, t: Table, kvs: seq<(string, string)>, e: Event)
    requires At(s, p, PairEvents(kvs) + [Produced(e)]) && AcceptedTableEntries(kvs)
    requires !e.Scalar? && !e.MappingEnd?
    ensures TableEntries(s, p, t) == Failed(Expected(WantScalarOrMappingEnd), p + 2 * |kvs| + 1)
  {
    var q := AtSplitAt(s, p, PairEvents(kvs), [Produced(e)]);
    AtIndex(s, q, [Produced(e)], 0);
    var r, u := PairsLoop(s, p, t, kvs);
  }

  /** After accepted pairs, a known key whose value is not a scalar fails. */
  lemma {:induction false} TableRejectsValue(s: seq<Item>, p: nat, t: Table, kvs: seq<(string, string)>, key: string)
    requires At(s, p, PairEvents(kvs) + [ScalarItem(key)]) && AcceptedTableEntries(kvs) && IsTableKey(key)
    requires var q := p + 2 * |kvs| + 1; !(q < |s| && s[q].Produced? && s[q].event.Scalar?)
    ensures TableEntries(s, p, t) == Failed(Expected(WantScalar), After(s, p + 2 * |kvs| + 1))
  {
    var q := AtSplitAt(s, p, PairEvents(kvs), [ScalarItem(key)]);
    AtIndex(s, q, [ScalarItem(key)], 0);
    var r, u := PairsLoop(s, p, t, kvs);
    assert ScalarAt(s, r + 1) == Failed(Expected(WantScalar), After(s, r + 1));
  }

  /** parse_table needs a MappingStart first. */
  lemma {:induction false} TableNeedsMappingStart(s: seq<Item>, p: nat)
    requires p <= |s|
    ensures !(p < |s| && s[p] == Produced(MappingStart)) ==>
              TableAt(s, p) == Failed(Expected(WantMappingStart), After(s, p))
  {
  }

  /** The table is complete at MappingEnd, and also when the input runs out or the producer fails. */
  lemma {:induction false} TableEndsAfterPairs(s: seq<Item>, p: nat, t: Table, kvs: seq<(string, string)>)
    requires At(s, p, PairEvents(kvs)) && AcceptedTableEntries(kvs)
    requires p + 2 * |kvs| == |s| || s[p + 2 * |kvs|] == ProducerError || s[p + 2 * |kvs|] == Produced(MappingEnd)
    ensures TableEntries(s, p, t) == Done(ApplyTableEntries(t, kvs), After(s, p + 2 * |kvs|))
  {
    var r, u := PairsLoop(s, p, t, kvs);
  }

  /** The four pairs of a table, applied to the default table, give the table back. */
  lemma {:induction false} TablePairsRebuild(t: Table)
    ensures AcceptedTableEntries(TablePairs(t))
    ensures ApplyTableEntries(DefaultTable, TablePairs(t)) == t
  {
    GradeRoundTrip(t.grade);
    var kvs := TablePairs(t);
    assert AcceptedTableEntry(kvs[1]);
    var t1 := DefaultTable.(language := t.language);
    var t2 := t1.(grade := t.grade);
    var t3 := t2.(system := t.system);
    assert kvs[1..][1..][1..][1..] == [];
    assert ApplyTableEntries(t3, kvs[3..]) == t;
    assert ApplyTableEntries(t2, kvs[2..]) == t;
    assert ApplyTableEntries(t1, kvs[1..]) == t;
  }

  /** A table written as its four pairs decodes to itself. */
  lemma {:induction false} TableRoundTrip(s: seq<Item>, p: nat, t: Table)
    requires At(s, p, TableEvents(t))
    ensures TableAt(s, p) == Done(t, p + |TableEvents(t)|)
  {
    TablePairsRebuild(t);
    TableDecodesPairs(s, p, TablePairs(t));
  }

  // ---------------------------------------------------------------- flags

  /** The accepted spellings are exactly the serialized names of every mode but `Forward`. */
  lemma {:induction false} ModeNamedInverse(value: string, m: TestMode)
    ensures ModeNamed(value) == Some(m) <==> m != Forward && value == ModeName(m)
  {
  }

  /**
   * parse_flags succeeds with `m` exactly on `{testmode: <name of m>}`, and
   * never with `Forward`.
   */
  lemma {:induction false} FlagsForms(s: seq<Item>, p: nat, m: TestMode)
    requires p <= |s|
    ensures FlagsAt(s, p).Done? && FlagsAt(s, p).value == m <==> m != Forward && At(s, p, FlagsEvents(m))
    ensures FlagsAt(s, p).Done? ==> FlagsAt(s, p).next == p + 4
  {
    if m != Forward && At(s, p, FlagsEvents(m)) {
      FlagsWritten(s, p, m);
    }
    FlagsDecoded(s, p);
  }

  /** A written flags mapping decodes to its mode. */
  lemma {:induction false} FlagsWritten(s: seq<Item>, p: nat, m: TestMode)
    requires m != Forward && At(s, p, FlagsEvents(m))
    ensures FlagsAt(s, p) == Done(m, p + 4)
  {
    var b := FlagsEvents(m);
    assert b == [Produced(MappingStart), ScalarItem("testmode"), ScalarItem(ModeName(m)), Produced(MappingEnd)];
    AtIndex(s, p, b, 0);
    AtIndex(s, p, b, 1);
    AtIndex(s, p, b, 2);
    AtIndex(s, p, b, 3);
    ModeNamedInverse(ModeName(m), m);
  }

  /** Whatever parse_flags accepts is the written form of a mode other than `forward`. */
  lemma {:induction false} FlagsDecoded(s: seq<Item>, p: nat)
    requires p <= |s|
    ensures var r := FlagsAt(s, p);
            r.Done? ==> r.next == p + 4 && r.value != Forward && At(s, p, FlagsEvents(r.value))
  {
    var r := FlagsAt(s, p);
    if r.Done? {
      var value := s[p + 2].event.value;
      ModeNamedInverse(value, r.value);
      var b := FlagsEvents(r.value);
      assert b == [Produced(MappingStart), ScalarItem("testmode"), ScalarItem(value), Produced(MappingEnd)];
      assert s[p] == b[0] && s[p + 1] == b[1] && s[p + 2] == b[2] && s[p + 3] == b[3];
      forall i | 0 <= i < |b| ensures s[p + i] == b[i] {
        if i == 0 {} else if i == 1 {} else if i == 2 {} else {}
      }
    }
  }

  /** Any other spelling after the `testmode` key, `forward` included, is refused. */
  lemma {:induction false} FlagsRejectMode(s: seq<Item>, p: nat, value: string)
    requires At(s, p, [Produced(MappingStart), ScalarItem("testmode"), ScalarItem(value)])
    requires ModeNamed(value).None?
    ensures FlagsAt(s, p) == Failed(UnsupportedTestMode(value), p + 3)
  {
    AtIndex(s, p, [Produced(MappingStart), ScalarItem("testmode"), ScalarItem(value)], 0);
    AtIndex(s, p, [Produced(MappingStart), ScalarItem("testmode"), ScalarItem(value)], 1);
    AtIndex(s, p, [Produced(MappingStart), ScalarItem("testmode"), ScalarItem(value)], 2);
  }

  /** The first entry of the flags mapping must be the scalar key `testmode`. */
  lemma {:induction false} FlagsNeedTestmode(s: seq<Item>, p: nat)
    requires p < |s| && s[p] == Produced(MappingStart)
    requires !(p + 1 < |s| && s[p + 1] == ScalarItem("testmode"))
    ensures FlagsAt(s, p) == Failed(Expected(WantTestmodeKey), After(s, p + 1))
  {
  }

  /**
   * The other exits of parse_flags: no MappingStart, no scalar after the
   * `testmode` key, and no MappingEnd after an accepted mode.
   */
  lemma {:induction false} FlagsRejectShape(s: seq<Item>, p: nat)
    requires p <= |s|
    ensures !(p < |s| && s[p] == Produced(MappingStart)) ==>
              FlagsAt(s, p) == Failed(Expected(WantMappingStart), After(s, p))
    ensures p + 1 < |s| && s[p] == Produced(MappingStart) && s[p + 1] == ScalarItem("testmode")
            && !(p + 2 < |s| && s[p + 2].Produced? && s[p + 2].event.Scalar?) ==>
              FlagsAt(s, p) == Failed(Expected(WantScalar), After(s, p + 2))
    ensures p + 2 < |s| && s[p] == Produced(MappingStart) && s[p + 1] == ScalarItem("testmode")
            && s[p + 2].Produced? && s[p + 2].event.Scalar? && ModeNamed(s[p + 2].event.value).Some?
            && !(p + 3 < |s| && s[p + 3] == Produced(MappingEnd)) ==>
              FlagsAt(s, p) == Failed(Expected(WantMappingEnd), After(s, p + 3))
  {
  }

  // ---------------------------------------------------------------- xfail

  predicate IsXfailDirection(item: Item) {
    item == ScalarItem("forward") || item == ScalarItem("backward")
  }

  /** The scalar whose text decides the xfail value. */
  function XfailScalar(s: seq<Item>, p: nat): (text: string)
    requires p < |s|
  {
    if s[p] == Produced(MappingStart) && p + 2 < |s| && s[p + 2].Produced? && s[p + 2].event.Scalar? then s[p + 2].event.value
    else if s[p].Produced? && s[p].event.Scalar? then s[p].event.value
    else ""
  }

  /**
   * parse_xfail_value accepts exactly a scalar, or a mapping with one key
   * `forward` or `backward`, one scalar value and MappingEnd; the result is
   * false exactly for the texts "off" and "false".
   */
  lemma {:induction false} XfailForms(s: seq<Item>, p: nat)
    requires p <= |s|
    ensures XfailAt(s, p).Done? <==>
      (p < |s| && s[p].Produced? && s[p].event.Scalar?)
      || (p + 4 <= |s| && s[p] == Produced(MappingStart) && IsXfailDirection(s[p + 1])
          && s[p + 2].Produced? && s[p + 2].event.Scalar? && s[p + 3] == Produced(MappingEnd))
    ensures XfailAt(s, p).Done? ==>
      XfailAt(s, p).next == (if s[p].Produced? && s[p].event.Scalar? then p + 1 else p + 4)
      && (XfailAt(s, p).value <==> !(XfailScalar(s, p) == "off" || XfailScalar(s, p) == "false"))
  {
  }

  /** The error each other shape draws. */
  lemma {:induction false} XfailRejects(s: seq<Item>, p: nat)
    requires p <= |s|
    ensures !(p < |s| && s[p].Produced? && (s[p].event.Scalar? || s[p].event.MappingStart?)) ==>
              XfailAt(s, p) == Failed(UnsupportedXfailShape, After(s, p))
    ensures p + 1 < |s| && s[p] == Produced(MappingStart) && s[p + 1].Produced? && s[p + 1].event.Scalar?
            && !IsXfailDirection(s[p + 1]) ==>
              XfailAt(s, p) == Failed(UnsupportedXfailKey(s[p + 1].event.value), p + 2)
    ensures p < |s| && s[p] == Produced(MappingStart) && !(p + 1 < |s| && s[p + 1].Produced? && s[p + 1].event.Scalar?) ==>
              XfailAt(s, p) == Failed(Expected(WantScalar), After(s, p + 1))
    ensures p + 1 < |s| && s[p] == Produced(MappingStart) && IsXfailDirection(s[p + 1])
            && !(p + 2 < |s| && s[p + 2].Produced? && s[p + 2].event.Scalar?) ==>
              XfailAt(s, p) == Failed(Expected(WantScalar), After(s, p + 2))
    ensures p + 2 < |s| && s[p] == Produced(MappingStart) && IsXfailDirection(s[p + 1])
            && s[p + 2].Produced? && s[p + 2].event.Scalar? && !(p + 3 < |s| && s[p + 3] == Produced(MappingEnd)) ==>
              XfailAt(s, p) == Failed(Expected(WantMappingEnd), After(s, p + 3))
  {
  }
}
