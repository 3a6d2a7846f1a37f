/**
 * The event stream that the libyaml parser produces for one YAML file, as the
 * decoder sees it.  Only the payloads some reader inspects are kept: the
 * encoding of StreamStart and the text of a Scalar.  Anchors, tags, styles and
 * the implicit flags of the other events are not looked at by any reader.
 */
module Events {
  import opened Wrappers

  /** The encodings libyaml reports in a StreamStart event. */
  datatype Encoding = AnyEncoding | Utf8 | Utf16Le | Utf16Be

  datatype Event =
    | StreamStart(encoding: Option<Encoding>)
    | StreamEnd
    | DocumentStart
    | DocumentEnd
    | Alias
    | Scalar(value: string)
    | SequenceStart
    | SequenceEnd
    | MappingStart
    | MappingEnd

  /** One pull from the parser iterator: an event, or an error reported by libyaml. */
  datatype Item = Produced(event: Event) | ProducerError

  /** What `iter.next()` returns when the cursor stands at `p`: `None` once the input is exhausted. */
  function Pull(s: seq<Item>, p: nat): (x: Option<Item>)
    ensures x.Some? <==> p < |s|
    ensures x.Some? ==> x.value == s[p]
  {
    if p < |s| then Some(s[p]) else None
  }

  /** Where the cursor stands after one pull from `p`; an exhausted iterator stays exhausted. */
  function After(s: seq<Item>, p: nat): (q: nat)
    ensures p < |s| ==> q == p + 1
    ensures |s| <= p ==> q == p
  {
    if p < |s| then p + 1 else p
  }

  /** The payload-free event kinds that a primitive reader can insist on. */
  datatype Boundary =
    | StreamEndKind
    | DocumentStartKind
    | DocumentEndKind
    | MappingStartKind
    | MappingEndKind
    | SequenceStartKind
    | SequenceEndKind

  predicate Matches(e: Event, k: Boundary) {
    match k
    case StreamEndKind => e.StreamEnd?
    case DocumentStartKind => e.DocumentStart?
    case DocumentEndKind => e.DocumentEnd?
    case MappingStartKind => e.MappingStart?
    case MappingEndKind => e.MappingEnd?
    case SequenceStartKind => e.SequenceStart?
    case SequenceEndKind => e.SequenceEnd?
  }
}
