/**
 * The typed model the decoder builds: a test suite with its table, its
 * test mode and its test cases, and the rules by which the serializer leaves
 * fields out of the output.
 */
module Suite {
  import opened Wrappers

  newtype u8 = x: int | 0 <= x < 0x100
  newtype u16 = x: int | 0 <= x < 0x1_0000

  /** The translation direction(s) a suite exercises; `Forward` is the default. */
  datatype TestMode = Forward | Backward | BothDirections | Display | Hyphenate | HyphenateBraille

  /** A table described by its metadata; `path` is the `__assert-match` file. */
  datatype Table = Table(language: string, grade: u8, system: string, path: string)

  /** `Table::default()`: empty strings and grade 0. */
  const DefaultTable: Table := Table("", 0, "", "")

  /** Per-test translation mode toggles (never filled in by the decoder). */
  datatype Mode = NoContractions | CompbrlAtCursor | DotsIo | CompbrlLeftCursor | UcBrl | NoUndefined | PartialTrans

  datatype Test = Test(
    input: string,
    expected: string,
    xfail: bool,
    inputPos: seq<u16>,
    outputPos: seq<u16>,
    cursorPos: Option<u16>,
    mode: set<Mode>,
    maxOutputLength: Option<u16>)

  datatype TestSuite = TestSuite(displayTable: string, table: Table, mode: TestMode, tests: seq<Test>)

  /** `TestSuite::default()`, which is also the decoder's starting state. */
  const DefaultSuite: TestSuite := TestSuite("", DefaultTable, Forward, [])

  /** `Test { input, expected, xfail, ..Default::default() }`. */
  function NewTest(input: string, expected: string, xfail: bool): (t: Test)
    ensures t.input == input && t.expected == expected && t.xfail == xfail
    ensures Unpopulated(t)
  {
    Test(input, expected, xfail, [], [], None, {}, None)
  }

  /** The optional attributes keep their defaults: no positions, no cursor, no modes, no length. */
  predicate Unpopulated(t: Test) {
    t.inputPos == [] && t.outputPos == [] && t.cursorPos == None && t.mode == {} && t.maxOutputLength == None
  }

  /** The name the serializer writes for a mode (serde's camelCase renaming). */
  function ModeName(m: TestMode): string {
    match m
    case Forward => "forward"
    case Backward => "backward"
    case BothDirections => "bothDirections"
    case Display => "display"
    case Hyphenate => "hyphenate"
    case HyphenateBraille => "hyphenateBraille"
  }

  /** `is_false`, the skip predicate of the `xfail` field. */
  predicate IsFalse(b: bool): (skip: bool)
    ensures skip <==> b == false
  {
    !b
  }

  /** The fields of a test, in declaration order. */
  datatype TestField = InputField | ExpectedField | XfailField | InputPosField | OutputPosField
                     | CursorPosField | ModeField | MaxOutputLengthField

  /** The test with field `f` reset to its `Default::default()` value: "", false, an empty vector or set, or `None`. */
  function Cleared(t: Test, f: TestField): Test {
    match f
    case InputField => t.(input := "")
    case ExpectedField => t.(expected := "")
    case XfailField => t.(xfail := false)
    case InputPosField => t.(inputPos := [])
    case OutputPosField => t.(outputPos := [])
    case CursorPosField => t.(cursorPos := None)
    case ModeField => t.(mode := {})
    case MaxOutputLengthField => t.(maxOutputLength := None)
  }

  /** The `skip_serializing_if` rule of each field: false, an empty vector or set, or `None`. */
  predicate Skipped(t: Test, f: TestField): (skip: bool)
    ensures skip <==> f != InputField && f != ExpectedField && Cleared(t, f) == t
    ensures f == InputField || f == ExpectedField ==> !skip
    ensures Unpopulated(t) ==> (skip <==> f != InputField && f != ExpectedField && (f == XfailField ==> !t.xfail))
  {
    match f
    case InputField => false
    case ExpectedField => false
    case XfailField => IsFalse(t.xfail)
    case InputPosField => t.inputPos == []
    case OutputPosField => t.outputPos == []
    case CursorPosField => t.cursorPos.None?
    case ModeField => t.mode == {}
    case MaxOutputLengthField => t.maxOutputLength.None?
  }

  const AllTestFields: seq<TestField> :=
    [InputField, ExpectedField, XfailField, InputPosField, OutputPosField, CursorPosField, ModeField, MaxOutputLengthField]

  /** The fields among `fs` that the serializer writes for `t`, in the order of `fs`. */
  function KeptFields(t: Test, fs: seq<TestField>): (kept: seq<TestField>)
    ensures forall f :: f in kept <==> f in fs && !Skipped(t, f)
    ensures |kept| <= |fs|
  {
    if fs == [] then []
    else (if Skipped(t, fs[0]) then [] else [fs[0]]) + KeptFields(t, fs[1..])
  }

  /** The fields the serializer writes for one test, in declaration order. */
  function SerializedTestFields(t: Test): (fields: seq<TestField>)
    ensures forall f :: f in fields <==> !Skipped(t, f)
  {
    KeptFields(t, AllTestFields)
  }
}
