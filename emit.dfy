/**
 * Event streams written from model values: the events of an input file in the
 * shape the decoder reads (not the shape the serializer writes).  They are the partner of the decoders: the
 * lemmas in the property modules decode these streams back to the values.
 */
module Emit {
  import opened Wrappers
  import opened Events
  import opened Suite
  import opened Fields

  /**
   * The block `b` stands in `s` from position `p` on.  An event of `s` is
   * learnt from it only through `AtIndex`, so that a proof about a long block
   * looks at the positions it names and no others.
   */
  predicate At(s: seq<Item>, p: nat, b: seq<Item>) {
    p + |b| <= |s| && forall i | 0 <= i < |b| :: s[p + i] == b[i]
  }

  /** `At` is the statement that the slice of `s` at `p` is `b`. */
  lemma {:induction false} AtSlice(s: seq<Item>, p: nat, b: seq<Item>)
    ensures At(s, p, b) <==> p + |b| <= |s| && s[p..p + |b|] == b
  {
    if p + |b| <= |s| && s[p..p + |b|] == b {
      forall i | 0 <= i < |b| ensures s[p + i] == b[i] {
        assert s[p..p + |b|][i] == s[p + i];
      }
    }
  }

  lemma {:induction false} AtSplit(s: seq<Item>, p: nat, b1: seq<Item>, b2: seq<Item>)
    requires At(s, p, b1 + b2)
    ensures At(s, p, b1) && At(s, p + |b1|, b2)
  {
    forall i | 0 <= i < |b1| ensures s[p + i] == b1[i] {
      assert (b1 + b2)[i] == b1[i];
    }
    forall i | 0 <= i < |b2| ensures s[p + |b1| + i] == b2[i] {
      assert (b1 + b2)[|b1| + i] == b2[i];
    }
  }

  /** `AtSplit`, with the position `q` of the second block returned. */
  lemma {:induction false} AtSplitAt(s: seq<Item>, p: nat, b1: seq<Item>, b2: seq<Item>) returns (q: nat)
    requires At(s, p, b1 + b2)
    ensures q == p + |b1| && q + |b2| == p + |b1 + b2|
    ensures At(s, p, b1) && At(s, q, b2)
  {
    AtSplit(s, p, b1, b2);
    q := p + |b1|;
  }

  lemma {:induction false} AtIndex(s: seq<Item>, p: nat, b: seq<Item>, i: nat)
    requires At(s, p, b) && i < |b|
    ensures s[p + i] == b[i]
  {
  }

  lemma {:induction false} AppendFirst<T>(a: seq<T>, b: seq<T>)
    requires b != []
    ensures a + [b[0]] + b[1..] == a + b
  {
    assert b == [b[0]] + b[1..];
  }

  function ScalarItem(text: string): Item {
    Produced(Scalar(text))
  }

  // ---------------------------------------------------------------- numbers

  function DigitChar(d: nat): char
    requires d < 10
  {
    ('0' as int + d) as char
  }

  /** The decimal text of `n`, with no sign and no leading zero. */
  function DecimalText(n: nat): (text: string)
    ensures |text| > 0 && AllDigits(text)
  {
    if n < 10 then [DigitChar(n)] else DecimalText(n / 10) + [DigitChar(n % 10)]
  }

  // ---------------------------------------------------------------- table

  /** The table keys parse_table recognises. */
  predicate IsTableKey(key: string) {
    key == "language" || key == "grade" || key == "system" || key == "__assert-match"
  }

  /** A key/value pair parse_table accepts: a known key, and for `grade` a value that parses. */
  predicate AcceptedTableEntry(kv: (string, string)) {
    IsTableKey(kv.0) && (kv.0 == "grade" ==> ParseU8(kv.1).Some?)
  }

  predicate AcceptedTableEntries(kvs: seq<(string, string)>) {
    forall i | 0 <= i < |kvs| :: AcceptedTableEntry(kvs[i])
  }

  /** The two scalars of each key/value pair, in order. */
  function PairEvents(kvs: seq<(string, string)>): (b: seq<Item>)
    ensures |b| == 2 * |kvs|
  {
    if kvs == [] then [] else [ScalarItem(kvs[0].0), ScalarItem(kvs[0].1)] + PairEvents(kvs[1..])
  }

  /** The effect of one accepted pair: its own field is replaced, the others are kept. */
  function SetTableField(t: Table, kv: (string, string)): Table
    requires AcceptedTableEntry(kv)
  {
    if kv.0 == "language" then t.(language := kv.1)
    else if kv.0 == "grade" then t.(grade := ParseU8(kv.1).value)
    else if kv.0 == "system" then t.(system := kv.1)
    else t.(path := kv.1)
  }

  /** The pairs applied one after another, first to last. */
  function ApplyTableEntries(t: Table, kvs: seq<(string, string)>): Table
    requires AcceptedTableEntries(kvs)
    decreases kvs
  {
    if kvs == [] then t else ApplyTableEntries(SetTableField(t, kvs[0]), kvs[1..])
  }

  /** The value of the last pair with this key, if any. */
  function LastValue(kvs: seq<(string, string)>, key: string): Option<string> {
    if kvs == [] then None
    else match LastValue(kvs[1..], key)
      case Some(v) => Some(v)
      case None => if kvs[0].0 == key then Some(kvs[0].1) else None
  }

  /** The four pairs that describe a table; the grade is written in decimal. */
  function TablePairs(t: Table): seq<(string, string)> {
    [("language", t.language), ("grade", DecimalText(t.grade as nat)), ("system", t.system), ("__assert-match", t.path)]
  }

  function MappingEvents(kvs: seq<(string, string)>): seq<Item> {
    [Produced(MappingStart)] + PairEvents(kvs) + [Produced(MappingEnd)]
  }

  function TableEvents(t: Table): seq<Item> {
    MappingEvents(TablePairs(t))
  }

  // ---------------------------------------------------------------- flags

  function FlagsEvents(m: TestMode): seq<Item> {
    MappingEvents([("testmode", ModeName(m))])
  }

  // ---------------------------------------------------------------- tests

  /** The value of one `xfail` attribute: a bare scalar, or the one-entry mapping `{forward: text}` or `{backward: text}`. */
  datatype XfailForm = Bare(text: string) | Directional(direction: string, text: string)

  /** A form parse_xfail_value accepts: a directional form is keyed `forward` or `backward`. */
  predicate AcceptedXfailForm(f: XfailForm) {
    f.Directional? ==> f.direction == "forward" || f.direction == "backward"
  }

  predicate AcceptedXfailForms(forms: seq<XfailForm>) {
    forall i | 0 <= i < |forms| :: AcceptedXfailForm(forms[i])
  }

  function XfailValueEvents(f: XfailForm): (b: seq<Item>)
    ensures |b| == if f.Bare? then 1 else 4
  {
    match f
    case Bare(text) => [ScalarItem(text)]
    case Directional(direction, text) => [Produced(MappingStart), ScalarItem(direction), ScalarItem(text), Produced(MappingEnd)]
  }

  /** One `xfail: <form>` entry of the attribute mapping per form, in order. */
  function XfailEntries(forms: seq<XfailForm>): seq<Item> {
    if forms == [] then [] else [ScalarItem("xfail")] + XfailValueEvents(forms[0]) + XfailEntries(forms[1..])
  }

  /** A test after its opening SequenceStart: `input, expected` and, for an expected failure, `{xfail: true}`. */
  function CaseEvents(t: Test): seq<Item> {
    [ScalarItem(t.input), ScalarItem(t.expected)]
    + (if t.xfail then MappingEvents([("xfail", "true")]) else [])
    + [Produced(SequenceEnd)]
  }

  /** The inner sequences of a test list, in order. */
  function ListEvents(ts: seq<Test>): seq<Item> {
    if ts == [] then [] else [Produced(SequenceStart)] + CaseEvents(ts[0]) + ListEvents(ts[1..])
  }

  function TestsEvents(ts: seq<Test>): seq<Item> {
    [Produced(SequenceStart)] + ListEvents(ts) + [Produced(SequenceEnd)]
  }

  predicate AllUnpopulated(ts: seq<Test>) {
    forall i | 0 <= i < |ts| :: Unpopulated(ts[i])
  }

  // ---------------------------------------------------------------- document

  /** One top-level entry of the document mapping. */
  datatype Entry = DisplayEntry(path: string) | TableEntry(table: Table) | FlagsEntry(mode: TestMode) | TestsEntry(tests: seq<Test>)

  /** An entry the input shape can write: `forward` has no spelling and tests carry no extra attributes. */
  predicate Writable(e: Entry) {
    match e
    case FlagsEntry(m) => m != Forward
    case TestsEntry(ts) => AllUnpopulated(ts)
    case _ => true
  }

  predicate AllWritable(es: seq<Entry>) {
    forall i | 0 <= i < |es| :: Writable(es[i])
  }

  function EntryEvents(e: Entry): seq<Item> {
    match e
    case DisplayEntry(path) => [ScalarItem("display"), ScalarItem(path)]
    case TableEntry(t) => [ScalarItem("table")] + TableEvents(t)
    case FlagsEntry(m) => [ScalarItem("flags")] + FlagsEvents(m)
    case TestsEntry(ts) => [ScalarItem("tests")] + TestsEvents(ts)
  }

  function EntriesEvents(es: seq<Entry>): seq<Item>
    decreases |es|, 1
  {
    if es == [] then [] else EntriesFrom(es)
  }

  /** The events of a non-empty list of entries: the first entry, then the rest. */
  function EntriesFrom(es: seq<Entry>): seq<Item>
    requires es != []
    decreases |es|, 0
  {
    EntryEvents(es[0]) + EntriesEvents(es[1..])
  }

  /** A whole UTF-8 stream holding one document whose top-level mapping has these entries. */
  function DocumentEvents(es: seq<Entry>): seq<Item> {
    [Produced(StreamStart(Some(Utf8))), Produced(DocumentStart), Produced(MappingStart)]
    + EntriesEvents(es)
    + [Produced(MappingEnd), Produced(DocumentEnd), Produced(StreamEnd)]
  }

  /** The effect of one entry on the suite under construction. */
  function ApplyEntry(suite: TestSuite, e: Entry): TestSuite {
    match e
    case DisplayEntry(path) => suite.(displayTable := path)
    case TableEntry(t) => suite.(table := t)
    case FlagsEntry(m) => suite.(mode := m)
    case TestsEntry(ts) => suite.(tests := ts)
  }

  function ApplyEntries(suite: TestSuite, es: seq<Entry>): TestSuite
    decreases es
  {
    if es == [] then suite else ApplyEntries(ApplyEntry(suite, es[0]), es[1..])
  }

  /** The top-level key an entry is written under. */
  datatype Key = DisplayKey | TableKey | FlagsKey | TestsKey

  function KeyOf(e: Entry): Key {
    match e
    case DisplayEntry(_) => DisplayKey
    case TableEntry(_) => TableKey
    case FlagsEntry(_) => FlagsKey
    case TestsEntry(_) => TestsKey
  }

  /** The last entry written under key `k`, if any. */
  function LastOf(es: seq<Entry>, k: Key): (r: Option<Entry>)
    ensures r.Some? ==> KeyOf(r.value) == k
  {
    if es == [] then None
    else match LastOf(es[1..], k)
      case Some(e) => Some(e)
      case None => if KeyOf(es[0]) == k then Some(es[0]) else None
  }

  /** The entries that write a suite: `flags` only when its mode is not the default. */
  function SuiteEntries(suite: TestSuite): seq<Entry> {
    [DisplayEntry(suite.displayTable), TableEntry(suite.table)]
    + (if suite.mode == Forward then [] else [FlagsEntry(suite.mode)])
    + [TestsEntry(suite.tests)]
  }

  function SuiteEvents(suite: TestSuite): seq<Item> {
    DocumentEvents(SuiteEntries(suite))
  }
}
