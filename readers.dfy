/**
 * The error kinds of the decoder and its primitive readers (src/main.rs
 * read_stream_start .. read_scalar).  Each reader pulls exactly one item and
 * either accepts it or fails; the specification functions here say what a
 * reader does when the cursor stands at `p` of the stream `s`.
 */
module Readers {
  import opened Wrappers
  import opened Events

  /** What a failing reader or decoder was looking for ("Expected ..."). */
  datatype Wanted =
    | WantStreamStart
    | WantStreamEnd
    | WantDocumentStart
    | WantDocumentEnd
    | WantMappingStart
    | WantMappingEnd
    | WantSequenceStart
    | WantSequenceEnd
    | WantScalar
    | WantScalarOrMappingEnd
    | WantSequenceEndOrMappingStart
    | WantTestmodeKey

  function WantedFor(k: Boundary): Wanted {
    match k
    case StreamEndKind => WantStreamEnd
    case DocumentStartKind => WantDocumentStart
    case DocumentEndKind => WantDocumentEnd
    case MappingStartKind => WantMappingStart
    case MappingEndKind => WantMappingEnd
    case SequenceStartKind => WantSequenceStart
    case SequenceEndKind => WantSequenceEnd
  }

  /**
   * The ways the decoder fails.  Each `bail!` site, and the failed grade parse,
   * maps to one kind; sites that report the same thing share it.
   */
  datatype Error =
    | Expected(wanted: Wanted)
    | UnsupportedEncoding(encoding: Option<Encoding>)
    | UnknownTableAttribute(key: string)
    | InvalidGrade(text: string)
    | UnsupportedTestMode(value: string)
    | UnsupportedXfailKey(key: string)
    | UnsupportedXfailShape
    | UnknownField(key: string)

  /**
   * What a decoder started at some position yields: a value or an error,
   * together with the position the cursor has reached.
   */
  datatype Parsed<T> = Done(value: T, next: nat) | Failed(error: Error, next: nat) {
    predicate IsFailure() {
      Failed?
    }

    function PropagateFailure<U>(): Parsed<U>
      requires Failed?
    {
      Failed(error, next)
    }

    function Extract(): Parsed<T>
      requires Done?
    {
      this
    }

    /** The `Result` the Rust function returns. */
    function Outcome(): Result<T, Error> {
      if Done? then Ok(value) else Err(error)
    }
  }

  /** read_stream_end, read_document_start/end, read_mapping_start/end, read_sequence_start/end. */
  function ExpectAt(s: seq<Item>, p: nat, k: Boundary): (r: Parsed<()>)
    ensures r.next == After(s, p)
    ensures r.Done? <==> p < |s| && s[p].Produced? && Matches(s[p].event, k)
    ensures r.Failed? ==> r.error == Expected(WantedFor(k))
  {
    match Pull(s, p)
    case Some(Produced(e)) =>
      if Matches(e, k) then Done((), p + 1) else Failed(Expected(WantedFor(k)), p + 1)
    case _ => Failed(Expected(WantedFor(k)), After(s, p))
  }

  /** read_stream_start: a StreamStart event whose encoding is UTF-8. */
  function StreamStartAt(s: seq<Item>, p: nat): (r: Parsed<()>)
    ensures r.next == After(s, p)
    ensures r.Done? <==> p < |s| && s[p] == Produced(StreamStart(Some(Utf8)))
    ensures r.Failed? && p < |s| && s[p].Produced? && s[p].event.StreamStart? ==>
              r.error == UnsupportedEncoding(s[p].event.encoding)
    ensures r.Failed? && !(p < |s| && s[p].Produced? && s[p].event.StreamStart?) ==>
              r.error == Expected(WantStreamStart)
  {
    match Pull(s, p)
    case Some(Produced(StreamStart(encoding))) =>
      if encoding == Some(Utf8) then Done((), p + 1) else Failed(UnsupportedEncoding(encoding), p + 1)
    case _ => Failed(Expected(WantStreamStart), After(s, p))
  }

  /** read_scalar: a Scalar event, whose text is the value. */
  function ScalarAt(s: seq<Item>, p: nat): (r: Parsed<string>)
    ensures r.next == After(s, p)
    ensures r.Done? <==> p < |s| && s[p].Produced? && s[p].event.Scalar?
    ensures r.Done? ==> r.value == s[p].event.value
    ensures r.Failed? ==> r.error == Expected(WantScalar)
  {
    match Pull(s, p)
    case Some(Produced(Scalar(value))) => Done(value, p + 1)
    case _ => Failed(Expected(WantScalar), After(s, p))
  }
}
