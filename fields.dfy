/**
 * The field decoders of src/main.rs: parse_table, parse_flags,
 * read_xfail_value, parse_xfail_value, parse_test and parse_tests, as
 * functions of the event stream `s` and the cursor position `p` they start
 * at.  A `while let Some(Ok(event)) = iter.next()` loop becomes a recursive
 * function that returns what it has built once the stream is exhausted or the
 * producer reports an error.
 */
module Fields {
  import opened Wrappers
  import opened Events
  import opened Suite
  import opened Readers

  // ---------------------------------------------------------------- grade

  predicate IsDigit(c: char) {
    '0' <= c <= '9'
  }

  predicate AllDigits(d: string) {
    forall i | 0 <= i < |d| :: IsDigit(d[i])
  }

  /** The value of a string of decimal digits, most significant first. */
  function DigitsValue(d: string): nat
    requires AllDigits(d)
  {
    if d == [] then 0 else 10 * DigitsValue(d[..|d| - 1]) + (d[|d| - 1] as int - '0' as int)
  }

  /**
   * `str::parse::<u8>`: one optional leading '+', then at least one decimal
   * digit, and a value that fits in eight bits.
   */
  function ParseU8(text: string): (r: Option<u8>)
    ensures r.Some? ==> text != [] && text != "+"
  {
    if text == [] || text == "+" then None
    else
      var digits := if text[0] == '+' then text[1..] else text;
      if AllDigits(digits) && DigitsValue(digits) < 0x100 then Some(DigitsValue(digits) as u8) else None
  }

  // ---------------------------------------------------------------- table

  /** parse_table: a mapping, whose entries update a default table. */
  function TableAt(s: seq<Item>, p: nat): (r: Parsed<Table>)
    requires p <= |s|
    ensures p <= r.next <= |s|
    ensures r.Done? ==> p < r.next
  {
    var start :- ExpectAt(s, p, MappingStartKind);
    TableEntries(s, start.next, DefaultTable)
  }

  /** The loop of parse_table, with `table` the value built so far. */
  function TableEntries(s: seq<Item>, p: nat, table: Table): (r: Parsed<Table>)
    requires p <= |s|
    ensures p <= r.next <= |s|
    decreases |s| - p
  {
    match Pull(s, p)
    case None => Done(table, p)
    case Some(ProducerError) => Done(table, p + 1)
    case Some(Produced(e)) =>
      if e.Scalar? then
        if e.value == "language" then
          var v :- ScalarAt(s, p + 1);
          TableEntries(s, v.next, table.(language := v.value))
        else if e.value == "grade" then
          var v :- ScalarAt(s, p + 1);
          match ParseU8(v.value)
          case None => Failed(InvalidGrade(v.value), v.next)
          case Some(g) => TableEntries(s, v.next, table.(grade := g))
        else if e.value == "system" then
          var v :- ScalarAt(s, p + 1);
          TableEntries(s, v.next, table.(system := v.value))
        else if e.value == "__assert-match" then
          var v :- ScalarAt(s, p + 1);
          TableEntries(s, v.next, table.(path := v.value))
        else
          Failed(UnknownTableAttribute(e.value), p + 1)
      else if e.MappingEnd? then
        Done(table, p + 1)
      else
        Failed(Expected(WantScalarOrMappingEnd), p + 1)
  }

  // ---------------------------------------------------------------- flags

  /** The test modes parse_flags accepts; "forward" is not among them. */
  function ModeNamed(value: string): (m: Option<TestMode>)
    ensures m.Some? ==> m.value != Forward && ModeName(m.value) == value
    ensures value == "forward" ==> m.None?
  {
    if value == "backward" then Some(Backward)
    else if value == "bothDirections" then Some(BothDirections)
    else if value == "display" then Some(Display)
    else if value == "hyphenate" then Some(Hyphenate)
    else if value == "hyphenateBraille" then Some(HyphenateBraille)
    else None
  }

  /** parse_flags: `{testmode: <mode>}`. */
  function FlagsAt(s: seq<Item>, p: nat): (r: Parsed<TestMode>)
    requires p <= |s|
    ensures p <= r.next <= |s|
    ensures r.Done? ==> p < r.next
  {
    var start :- ExpectAt(s, p, MappingStartKind);
    var q := start.next;
    if !(q < |s| && s[q] == Produced(Scalar("testmode"))) then
      Failed(Expected(WantTestmodeKey), After(s, q))
    else
      match Pull(s, q + 1)
      case Some(Produced(Scalar(value))) =>
        (match ModeNamed(value)
         case None => Failed(UnsupportedTestMode(value), q + 2)
         case Some(mode) =>
           var end :- ExpectAt(s, q + 2, MappingEndKind);
           Done(mode, end.next))
      case _ => Failed(Expected(WantScalar), After(s, q + 1))
  }

  // ---------------------------------------------------------------- xfail

  /** read_xfail_value: every scalar except "off" and "false" marks an expected failure. */
  function ReadXfailValue(value: string): (xfail: bool)
    ensures !xfail <==> value == "off" || value == "false"
  {
    !(value == "off" || value == "false")
  }

  /** parse_xfail_value: a scalar, or a one-entry mapping keyed `forward` or `backward`. */
  function XfailAt(s: seq<Item>, p: nat): (r: Parsed<bool>)
    requires p <= |s|
    ensures p <= r.next <= |s|
  {
    match Pull(s, p)
    case Some(Produced(Scalar(value))) => Done(ReadXfailValue(value), p + 1)
    case Some(Produced(MappingStart)) =>
      var key :- ScalarAt(s, p + 1);
      if key.value != "forward" && key.value != "backward" then
        Failed(UnsupportedXfailKey(key.value), key.next)
      else
        var value :- ScalarAt(s, key.next);
        var end :- ExpectAt(s, value.next, MappingEndKind);
        Done(ReadXfailValue(value.value), end.next)
    case _ => Failed(UnsupportedXfailShape, After(s, p))
  }

  // ---------------------------------------------------------------- tests

  /** parse_test, entered just after the SequenceStart of one test. */
  function TestAt(s: seq<Item>, p: nat): (r: Parsed<Test>)
    requires p <= |s|
    ensures p <= r.next <= |s|
    ensures r.Done? ==> p < r.next
  {
    var input :- ScalarAt(s, p);
    var expected :- ScalarAt(s, input.next);
    var q := expected.next;
    match Pull(s, q)
    case Some(Produced(SequenceEnd)) => Done(NewTest(input.value, expected.value, false), q + 1)
    case Some(Produced(MappingStart)) =>
      var xfail :- TestAttributes(s, q + 1, false);
      var end :- ExpectAt(s, xfail.next, SequenceEndKind);
      Done(NewTest(input.value, expected.value, xfail.value), end.next)
    case _ => Failed(Expected(WantSequenceEndOrMappingStart), After(s, q))
  }

  /** The loop of parse_test over the attribute mapping, with `xfail` the value so far. */
  function TestAttributes(s: seq<Item>, p: nat, xfail: bool): (r: Parsed<bool>)
    requires p <= |s|
    ensures p <= r.next <= |s|
    decreases |s| - p
  {
    match Pull(s, p)
    case None => Done(xfail, p)
    case Some(ProducerError) => Done(xfail, p + 1)
    case Some(Produced(e)) =>
      if e == Scalar("xfail") then
        var x :- XfailAt(s, p + 1);
        TestAttributes(s, x.next, x.value)
      else if e.MappingEnd? then
        Done(xfail, p + 1)
      else
        Failed(Expected(WantScalarOrMappingEnd), p + 1)
  }

  /** parse_tests: a sequence of tests, each itself a sequence. */
  function TestsAt(s: seq<Item>, p: nat): (r: Parsed<seq<Test>>)
    requires p <= |s|
    ensures p <= r.next <= |s|
    ensures r.Done? ==> p < r.next
  {
    var start :- ExpectAt(s, p, SequenceStartKind);
    TestList(s, start.next, [])
  }

  /** The loop of parse_tests, with `tests` the tests decoded so far. */
  function TestList(s: seq<Item>, p: nat, tests: seq<Test>): (r: Parsed<seq<Test>>)
    requires p <= |s|
    ensures p <= r.next <= |s|
    decreases |s| - p, 2
  {
    match Pull(s, p)
    case None => Done(tests, p)
    case Some(ProducerError) => Done(tests, p + 1)
    case Some(Produced(e)) => TestListElement(s, p + 1, e, tests)
  }

  /** The dispatch on the event `e` that opens an element; what follows it starts at `p`. */
  function TestListElement(s: seq<Item>, p: nat, e: Event, tests: seq<Test>): (r: Parsed<seq<Test>>)
    requires p <= |s|
    ensures p <= r.next <= |s|
    decreases |s| - p, 1
  {
    if e.SequenceEnd? then
      Done(tests, p)
    else if e.SequenceStart? then
      TestListItem(s, p, tests)
    else
      Failed(Expected(WantSequenceStart), p)
  }

  /** One test of the loop, entered after its SequenceStart, then the rest of the loop. */
  function TestListItem(s: seq<Item>, p: nat, tests: seq<Test>): (r: Parsed<seq<Test>>)
    requires p <= |s|
    ensures p <= r.next <= |s|
    decreases |s| - p, 0
  {
    var t :- TestAt(s, p);
    TestList(s, t.next, tests + [t.value])
  }
}
