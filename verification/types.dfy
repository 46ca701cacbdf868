/** Data model of the tracer backend: the parsed HTML tree handed to the
    classifier, the findings ("DOM contexts") it produces, and the event and
    tracer records they are attached to. */
module Types {

  datatype Option<+T> = None | Some(value: T)

  datatype Result<+T, +E> = Success(value: T) | Failure(error: E)

  /** Lifts an optional value to a sequence of length at most one. */
  function AsSeq<T>(o: Option<T>): (r: seq<T>)
    ensures |r| <= 1
    ensures o.Some? <==> |r| == 1
    ensures o.Some? ==> r[0] == o.value
  {
    match o
    case None => []
    case Some(v) => [v]
  }

  // ---------------------------------------------------------------------------
  // Go machine integers (64-bit platform)
  // ---------------------------------------------------------------------------

  const TwoTo63: int := 0x8000_0000_0000_0000
  const TwoTo64: int := 0x1_0000_0000_0000_0000

  /** Go `uint`; tracer identifiers are database ids of this type. */
  type Uint = x: int | 0 <= x < TwoTo64

  /** Go `int(x)` for a `uint` x: two's complement reinterpretation. */
  function GoInt(x: Uint): (i: int)
    ensures -TwoTo63 <= i < TwoTo63
    ensures x < TwoTo63 ==> i == x
  {
    if x < TwoTo63 then x else x - TwoTo64
  }

  /** Go `uint(i)` for an `int` i: reduction modulo 2^64.  It undoes `GoInt`
      on every value an `int` can hold, and maps -1 to the largest `uint`. */
  function GoUint(i: int): (x: Uint)
    ensures 0 <= i < TwoTo64 ==> x == i
    ensures -TwoTo63 <= i < TwoTo63 ==> GoInt(x) == i
    ensures i == -1 ==> x == TwoTo64 - 1
  {
    i % TwoTo64
  }

  /** Converting a tracer id to `int` and back is lossless. */
  lemma UintRoundTrip(x: Uint)
    ensures GoUint(GoInt(x)) == x
  {
  }

  /** Concatenation is associative. */
  lemma Assoc<T>(a: seq<T>, b: seq<T>, c: seq<T>)
    ensures a + b + c == a + (b + c)
  {
  }

  // ---------------------------------------------------------------------------
  // Parsed HTML tree (the output of golang.org/x/net/html)
  // ---------------------------------------------------------------------------

  datatype NodeType =
    | ErrorNode
    | TextNode
    | DocumentNode
    | ElementNode
    | CommentNode
    | DoctypeNode
    | RawNode

  datatype Attribute = Attribute(namespace: string, key: string, val: string)

  /** `data` is the tag name of an element and the content of a text or
      comment node; children are listed first child to last sibling. */
  datatype Node = Node(kind: NodeType, data: string, attrs: seq<Attribute>, children: seq<Node>)

  // ---------------------------------------------------------------------------
  // Findings
  // ---------------------------------------------------------------------------

  /** Where in the markup the tracer string was seen. */
  datatype LocationType = Text | NodeName | Comment | Attr | AttrVal

  /** Why a finding got its severity.  `Unclassified` is the zero value of the
      reason code, which a finding keeps when no rule assigns one. */
  datatype Reason =
    | Unclassified
    | LeafNode
    | LeafNodeScriptTag
    | LeafNodeCommentTag
    | TagName
    | AttributeName
    | AttributeNameHTTPResponse
    | AttributeValueHTTPResponse
    | AttributeValueStartHref
    | AttributeValueOnEventHandler

  /** One classified occurrence of the tracer string (a "DOM context"). */
  datatype DOMContext = DOMContext(
    tracerEventId: nat,
    htmlNodeType: string,
    location: LocationType,
    eventContext: string,
    severity: nat,
    reason: Reason)

  // ---------------------------------------------------------------------------
  // Events and tracers
  // ---------------------------------------------------------------------------

  /** `Blank` is the format code of an empty raw-event record. */
  datatype Format = Blank | HTML | JSON

  datatype RawEvent = RawEvent(id: nat, data: string, format: Format)

  const BlankRawEvent: RawEvent := RawEvent(0, "", Blank)

  datatype TracerEvent = TracerEvent(
    id: nat,
    tracerId: nat,
    rawEventId: nat,
    rawEvent: RawEvent,
    eventType: string,
    contexts: seq<DOMContext>)

  datatype Tracer = Tracer(
    id: Uint,
    tracerPayload: string,
    overallSeverity: nat,
    hasTracerEvents: bool)
}
