/** The XSS location classifier: a pre-order walk over a parsed HTML tree
    that records every place the tracer string occurs, with a severity from
    0 to 3 and a reason code, and keeps the highest severity seen.

    `Visit` follows the source walk step by step, including its per-call
    `sev`/`reason` locals that are not reset between attributes.  `Findings`
    is a stateless reference definition built from the rule tables
    `NodeVerdict` and `AttrVerdict`; `VisitIsPreorder` proves the two agree. */
module Classifier {
  import opened Types
  import opened Strings

  /** The event type under which findings are rated as less exploitable. */
  const Response: string := "response"
  const Script: string := "script"
  const Href: string := "href"
  const OnPrefix: string := "on"

  /** Nodes whose `data` is a name rather than content. */
  predicate IsNamed(k: NodeType)
  {
    k == DocumentNode || k == ElementNode || k == DoctypeNode
  }

  // ---------------------------------------------------------------------------
  // Reference rule tables
  // ---------------------------------------------------------------------------

  datatype Verdict = Verdict(location: LocationType, severity: nat, reason: Reason)

  /** Rating of a node whose own data contains the tracer.  An element tag
      name outranks the script-parent rule; under a "response" event every
      named node keeps severity 0 and the zero reason. */
  function NodeVerdict(kind: NodeType, parentName: string, eventType: string): Verdict
  {
    if kind == TextNode then Verdict(Text, 0, LeafNode)
    else if IsNamed(kind) then
      if eventType == Response then Verdict(NodeName, 0, Unclassified)
      else if kind == ElementNode then Verdict(NodeName, 3, TagName)
      else if parentName == Script then Verdict(NodeName, 1, LeafNodeScriptTag)
      else Verdict(NodeName, 0, Unclassified)
    else if eventType == Response then Verdict(Comment, 0, LeafNodeCommentTag)
    else Verdict(Comment, 1, LeafNodeCommentTag)
  }

  /** Rating of one attribute; a name match excludes a value match. */
  function AttrVerdict(a: Attribute, tracer: string, eventType: string): Option<Verdict>
  {
    if Contains(a.key, tracer) then
      if eventType == Response then Some(Verdict(Attr, 1, AttributeNameHTTPResponse))
      else Some(Verdict(Attr, 3, AttributeName))
    else if !Contains(a.val, tracer) then None
    else if eventType == Response then Some(Verdict(AttrVal, 1, AttributeValueHTTPResponse))
    else if a.key == Href && HasPrefix(a.val, tracer) then Some(Verdict(AttrVal, 2, AttributeValueStartHref))
    else if HasPrefix(a.key, OnPrefix) then Some(Verdict(AttrVal, 2, AttributeValueOnEventHandler))
    else Some(Verdict(AttrVal, 1, AttributeValueHTTPResponse))
  }

  /** The finding a node contributes about itself, if any. */
  function NodeFindings(n: Node, parentName: string, tracer: string, ev: TracerEvent,
                        pretty: string -> string): seq<DOMContext>
  {
    if Contains(n.data, tracer) then
      var v := NodeVerdict(n.kind, parentName, ev.eventType);
      [DOMContext(ev.id, parentName, v.location, pretty(n.data), v.severity, v.reason)]
    else []
  }

  /** The finding one attribute of the node named `nodeName` contributes, if any. */
  function AttrFinding(a: Attribute, nodeName: string, tracer: string, ev: TracerEvent): seq<DOMContext>
  {
    match AttrVerdict(a, tracer, ev.eventType)
    case None => []
    case Some(v) => [DOMContext(ev.id, nodeName, v.location, a.val, v.severity, v.reason)]
  }

  function AttrFindings(attrs: seq<Attribute>, nodeName: string, tracer: string, ev: TracerEvent): seq<DOMContext>
    decreases |attrs|
  {
    if attrs == [] then []
    else AttrFinding(attrs[0], nodeName, tracer, ev) + AttrFindings(attrs[1..], nodeName, tracer, ev)
  }

  /** Pre-order findings of a subtree: the node, then its attributes in
      order, then each child's subtree in order. */
  function Findings(n: Node, parentName: string, tracer: string, ev: TracerEvent,
                    pretty: string -> string): seq<DOMContext>
    decreases n
  {
    NodeFindings(n, parentName, tracer, ev, pretty)
      + AttrFindings(n.attrs, n.data, tracer, ev)
      + ChildFindings(n.children, n.data, tracer, ev, pretty)
  }

  function ChildFindings(cs: seq<Node>, parentName: string, tracer: string, ev: TracerEvent,
                         pretty: string -> string): seq<DOMContext>
    decreases cs
  {
    if cs == [] then []
    else Findings(cs[0], parentName, tracer, ev, pretty) + ChildFindings(cs[1..], parentName, tracer, ev, pretty)
  }

  // ---------------------------------------------------------------------------
  // Highest severity
  // ---------------------------------------------------------------------------

  /** The running-maximum update `if sev > highest { highest = sev }`. */
  function Raise(highest: nat, sev: nat): (r: nat)
    ensures r >= highest && r >= sev
    ensures r == highest || r == sev
  {
    if sev > highest then sev else highest
  }

  /** Highest severity among findings, 0 when there are none. */
  function MaxSev(fs: seq<DOMContext>): (r: nat)
    ensures forall i :: 0 <= i < |fs| ==> fs[i].severity <= r
    ensures fs == [] ==> r == 0
    ensures fs != [] ==> exists i :: 0 <= i < |fs| && fs[i].severity == r
    decreases |fs|
  {
    if fs == [] then 0
    else
      var rest := MaxSev(fs[1..]);
      assert forall i :: 1 <= i < |fs| ==> fs[i] == fs[1..][i - 1];
      Raise(rest, fs[0].severity)
  }

  lemma {:induction false} MaxSevConcat(a: seq<DOMContext>, b: seq<DOMContext>)
    ensures MaxSev(a + b) == Raise(MaxSev(a), MaxSev(b))
    decreases |a|
  {
    if a == [] {
      assert a + b == b;
    } else {
      assert (a + b)[1..] == a[1..] + b;
      MaxSevConcat(a[1..], b);
    }
  }

  // ---------------------------------------------------------------------------
  // The walk as written
  // ---------------------------------------------------------------------------

  /** The locals `sev` and `reason` of one call of the walk. */
  datatype Locals = Locals(sev: nat, reason: Reason)

  const FreshLocals: Locals := Locals(0, Unclassified)

  /** The accumulated findings and the running highest severity. */
  datatype Walk = Walk(found: seq<DOMContext>, highest: nat)

  /** The node's own test, with freshly zeroed locals: the script-parent
      rule first, then the element rule overwriting it.  Its result is the
      one the rule table prescribes, and `sev` ends up as the emitted
      severity (0 when nothing matched). */
  function NodeStage(n: Node, parentName: string, tracer: string, ev: TracerEvent,
                     pretty: string -> string): (r: (Option<DOMContext>, Locals))
    ensures AsSeq(r.0) == NodeFindings(n, parentName, tracer, ev, pretty)
    ensures r.1.sev == (if r.0.Some? then r.0.value.severity else 0)
  {
    var s := FreshLocals;
    if !Contains(n.data, tracer) then (None, s)
    else if n.kind == TextNode then
      (Some(DOMContext(ev.id, parentName, Text, pretty(n.data), s.sev, LeafNode)), s)
    else if IsNamed(n.kind) then
      var s1 := if parentName == Script && ev.eventType != Response then Locals(1, LeafNodeScriptTag) else s;
      var s2 := if n.kind == ElementNode && ev.eventType != Response then Locals(3, TagName) else s1;
      (Some(DOMContext(ev.id, parentName, NodeName, pretty(n.data), s2.sev, s2.reason)), s2)
    else
      var s1 := if ev.eventType != Response then s.(sev := 1) else s;
      (Some(DOMContext(ev.id, parentName, Comment, pretty(n.data), s1.sev, LeafNodeCommentTag)), s1)
  }

  /** One iteration of the attribute loop.  The locals carried in from the
      previous attribute survive when the attribute does not match; every
      matching branch overwrites both, so the finding does not depend on them. */
  function AttrStage(a: Attribute, nodeName: string, tracer: string, ev: TracerEvent,
                     s: Locals): (r: (Option<DOMContext>, Locals))
    ensures AsSeq(r.0) == AttrFinding(a, nodeName, tracer, ev)
    ensures r.0.Some? ==> r.1.sev == r.0.value.severity
    ensures r.0.None? ==> r.1 == s
  {
    if Contains(a.key, tracer) then
      var s1 := if ev.eventType != Response then Locals(3, AttributeName)
                else Locals(1, AttributeNameHTTPResponse);
      (Some(DOMContext(ev.id, nodeName, Attr, a.val, s1.sev, s1.reason)), s1)
    else if Contains(a.val, tracer) then
      var s1 := Locals(1, AttributeValueHTTPResponse);
      var s2 :=
        if ev.eventType != Response then
          if a.key == Href && HasPrefix(a.val, tracer) then Locals(2, AttributeValueStartHref)
          else if HasPrefix(a.key, OnPrefix) then Locals(2, AttributeValueOnEventHandler)
          else s1
        else s1;
      (Some(DOMContext(ev.id, nodeName, AttrVal, a.val, s2.sev, s2.reason)), s2)
    else (None, s)
  }

  /** The attribute loop: after every attribute, matching or not, the
      current `sev` is folded into `highest`. */
  function VisitAttrs(attrs: seq<Attribute>, nodeName: string, tracer: string, ev: TracerEvent,
                      s: Locals, w: Walk): Walk
    decreases |attrs|
  {
    if attrs == [] then w
    else
      var r := AttrStage(attrs[0], nodeName, tracer, ev, s);
      var found := w.found + AsSeq(r.0);
      VisitAttrs(attrs[1..], nodeName, tracer, ev, r.1, Walk(found, Raise(w.highest, r.1.sev)))
  }

  /** One call of the recursive walk on `n`, whose parent is named `parentName`. */
  function Visit(n: Node, parentName: string, tracer: string, ev: TracerEvent,
                 pretty: string -> string, w: Walk): Walk
    decreases n
  {
    var r := NodeStage(n, parentName, tracer, ev, pretty);
    var w1 := if r.0.Some? then Walk(w.found + [r.0.value], Raise(w.highest, r.1.sev)) else w;
    var w2 := VisitAttrs(n.attrs, n.data, tracer, ev, r.1, w1);
    VisitChildren(n.children, n.data, tracer, ev, pretty, w2)
  }

  function VisitChildren(cs: seq<Node>, parentName: string, tracer: string, ev: TracerEvent,
                         pretty: string -> string, w: Walk): Walk
    decreases cs
  {
    if cs == [] then w
    else VisitChildren(cs[1..], parentName, tracer, ev, pretty, Visit(cs[0], parentName, tracer, ev, pretty, w))
  }

  // ---------------------------------------------------------------------------
  // The walk agrees with the reference
  // ---------------------------------------------------------------------------

  /** The stale `sev` carried between attributes never exceeds `highest`, so
      folding it in is harmless: the loop appends exactly the reference
      attribute findings and raises `highest` by exactly their maximum. */
  lemma {:induction false} VisitAttrsAgrees(attrs: seq<Attribute>, nodeName: string, tracer: string,
                                            ev: TracerEvent, s: Locals, w: Walk)
    requires s.sev <= w.highest
    ensures VisitAttrs(attrs, nodeName, tracer, ev, s, w)
         == Walk(w.found + AttrFindings(attrs, nodeName, tracer, ev),
                 Raise(w.highest, MaxSev(AttrFindings(attrs, nodeName, tracer, ev))))
    decreases |attrs|
  {
    if attrs != [] {
      var r := AttrStage(attrs[0], nodeName, tracer, ev, s);
      var first := AttrFinding(attrs[0], nodeName, tracer, ev);
      var rest := AttrFindings(attrs[1..], nodeName, tracer, ev);
      var h := Raise(w.highest, r.1.sev);
      assert h == Raise(w.highest, MaxSev(first));
      VisitAttrsAgrees(attrs[1..], nodeName, tracer, ev, r.1, Walk(w.found + first, h));
      MaxSevConcat(first, rest);
      Assoc(w.found, first, rest);
    }
  }

  /** The node's own test and its attribute loop append the node's own and
      its attributes' reference findings; the children are visited next. */
  lemma NodeThenAttrs(n: Node, parentName: string, tracer: string, ev: TracerEvent,
                      pretty: string -> string, w: Walk)
    ensures var head := NodeFindings(n, parentName, tracer, ev, pretty) + AttrFindings(n.attrs, n.data, tracer, ev);
            (Visit(n, parentName, tracer, ev, pretty, w)
             == VisitChildren(n.children, n.data, tracer, ev, pretty,
                              Walk(w.found + head, Raise(w.highest, MaxSev(head)))))
  {
    var r := NodeStage(n, parentName, tracer, ev, pretty);
    var own := NodeFindings(n, parentName, tracer, ev, pretty);
    var attrs := AttrFindings(n.attrs, n.data, tracer, ev);
    var w1 := if r.0.Some? then Walk(w.found + [r.0.value], Raise(w.highest, r.1.sev)) else w;
    assert w1 == Walk(w.found + own, Raise(w.highest, MaxSev(own)));
    VisitAttrsAgrees(n.attrs, n.data, tracer, ev, r.1, w1);
    MaxSevConcat(own, attrs);
    Assoc(w.found, own, attrs);
  }

  /** The walk emits the reference findings in pre-order, and `highest` ends
      as the maximum of its initial value and every emitted severity. */
  lemma {:induction false} VisitIsPreorder(n: Node, parentName: string, tracer: string, ev: TracerEvent,
                                           pretty: string -> string, w: Walk)
    ensures Visit(n, parentName, tracer, ev, pretty, w)
         == Walk(w.found + Findings(n, parentName, tracer, ev, pretty),
                 Raise(w.highest, MaxSev(Findings(n, parentName, tracer, ev, pretty))))
    decreases n
  {
    var head := NodeFindings(n, parentName, tracer, ev, pretty) + AttrFindings(n.attrs, n.data, tracer, ev);
    var kids := ChildFindings(n.children, n.data, tracer, ev, pretty);
    NodeThenAttrs(n, parentName, tracer, ev, pretty, w);
    VisitChildrenIsPreorder(n.children, n.data, tracer, ev, pretty, Walk(w.found + head, Raise(w.highest, MaxSev(head))));
    MaxSevConcat(head, kids);
    Assoc(w.found, head, kids);
  }

  lemma {:induction false} VisitChildrenIsPreorder(cs: seq<Node>, parentName: string, tracer: string,
                                                   ev: TracerEvent, pretty: string -> string, w: Walk)
    ensures VisitChildren(cs, parentName, tracer, ev, pretty, w)
         == Walk(w.found + ChildFindings(cs, parentName, tracer, ev, pretty),
                 Raise(w.highest, MaxSev(ChildFindings(cs, parentName, tracer, ev, pretty))))
    decreases cs
  {
    if cs != [] {
      var head := Findings(cs[0], parentName, tracer, ev, pretty);
      var tail := ChildFindings(cs[1..], parentName, tracer, ev, pretty);
      VisitIsPreorder(cs[0], parentName, tracer, ev, pretty, w);
      var w1 := Visit(cs[0], parentName, tracer, ev, pretty, w);
      assert w1 == Walk(w.found + head, Raise(w.highest, MaxSev(head)));
      VisitChildrenIsPreorder(cs[1..], parentName, tracer, ev, pretty, w1);
      MaxSevConcat(head, tail);
      Assoc(w.found, head, tail);
      assert ChildFindings(cs, parentName, tracer, ev, pretty) == head + tail;
    }
  }

  // ---------------------------------------------------------------------------
  // Severity bounds
  // ---------------------------------------------------------------------------

  /** Highest severity a finding can have under the given event type. */
  function Cap(eventType: string): nat
  {
    if eventType == Response then 1 else 3
  }

  ghost predicate Bounded(fs: seq<DOMContext>, cap: nat)
  {
    forall i :: 0 <= i < |fs| ==> fs[i].severity <= cap
  }

  lemma {:induction false} AttrFindingsBounded(attrs: seq<Attribute>, nodeName: string, tracer: string,
                                               ev: TracerEvent)
    ensures Bounded(AttrFindings(attrs, nodeName, tracer, ev), Cap(ev.eventType))
    decreases |attrs|
  {
    if attrs != [] {
      AttrFindingsBounded(attrs[1..], nodeName, tracer, ev);
    }
  }

  /** Every finding of a subtree is rated 0..3, and at most 1 under a
      "response" event. */
  lemma {:induction false} FindingsBounded(n: Node, parentName: string, tracer: string, ev: TracerEvent,
                                           pretty: string -> string)
    ensures Bounded(Findings(n, parentName, tracer, ev, pretty), Cap(ev.eventType))
    decreases n
  {
    AttrFindingsBounded(n.attrs, n.data, tracer, ev);
    ChildFindingsBounded(n.children, n.data, tracer, ev, pretty);
  }

  lemma {:induction false} ChildFindingsBounded(cs: seq<Node>, parentName: string, tracer: string,
                                                ev: TracerEvent, pretty: string -> string)
    ensures Bounded(ChildFindings(cs, parentName, tracer, ev, pretty), Cap(ev.eventType))
    decreases cs
  {
    if cs != [] {
      FindingsBounded(cs[0], parentName, tracer, ev, pretty);
      ChildFindingsBounded(cs[1..], parentName, tracer, ev, pretty);
    }
  }

  // ---------------------------------------------------------------------------
  // Entry point
  // ---------------------------------------------------------------------------

  /** Classifies a whole parsed document: the root gets a parent with an empty
      name, and the walk starts with no findings and `highest` 0. */
  function Locate(root: Node, tracer: string, ev: TracerEvent, pretty: string -> string): (w: Walk)
    ensures w.found == Findings(root, "", tracer, ev, pretty)
    ensures w.highest == MaxSev(w.found)
    ensures forall i :: 0 <= i < |w.found| ==> w.found[i].severity <= 3
    ensures ev.eventType == Response ==> forall i :: 0 <= i < |w.found| ==> w.found[i].severity <= 1
  {
    VisitIsPreorder(root, "", tracer, ev, pretty, Walk([], 0));
    FindingsBounded(root, "", tracer, ev, pretty);
    Visit(root, "", tracer, ev, pretty, Walk([], 0))
  }

  // ---------------------------------------------------------------------------
  // Individual rules, on small documents
  // ---------------------------------------------------------------------------

  /** A text node holding the tracer gives exactly one finding, rated 0,
      whose enclosing name is the parent's name. */
  lemma TextLeafFinding(n: Node, parentName: string, tracer: string, ev: TracerEvent,
                        pretty: string -> string)
    requires n.kind == TextNode && n.attrs == [] && n.children == []
    requires Contains(n.data, tracer)
    ensures Visit(n, parentName, tracer, ev, pretty, Walk([], 0))
         == Walk([DOMContext(ev.id, parentName, Text, pretty(n.data), 0, LeafNode)], 0)
  {
    VisitIsPreorder(n, parentName, tracer, ev, pretty, Walk([], 0));
  }

  /** A comment (or any other non-text, unnamed node) holding the tracer gives
      exactly one Comment finding, rated 1, or 0 under a "response" event. */
  lemma CommentLeafFinding(n: Node, parentName: string, tracer: string, ev: TracerEvent,
                           pretty: string -> string)
    requires n.kind != TextNode && !IsNamed(n.kind) && n.attrs == [] && n.children == []
    requires Contains(n.data, tracer)
    ensures Visit(n, parentName, tracer, ev, pretty, Walk([], 0)).found
         == [DOMContext(ev.id, parentName, Comment, pretty(n.data),
                        if ev.eventType == Response then 0 else 1, LeafNodeCommentTag)]
  {
    VisitIsPreorder(n, parentName, tracer, ev, pretty, Walk([], 0));
  }

  /** An element whose tag name holds the tracer is rated 3 for its tag name
      even inside a script element; a document or doctype node there is rated
      1 as a script leaf. */
  lemma InsideScript(kind: NodeType, name: string, tracer: string, ev: TracerEvent, pretty: string -> string)
    requires IsNamed(kind)
    requires Contains(name, tracer) && !Contains(Script, tracer)
    requires ev.eventType != Response
    ensures var script := Node(ElementNode, Script, [], [Node(kind, name, [], [])]);
            (Locate(script, tracer, ev, pretty).found
             == if kind == ElementNode then [DOMContext(ev.id, Script, NodeName, pretty(name), 3, TagName)]
                else [DOMContext(ev.id, Script, NodeName, pretty(name), 1, LeafNodeScriptTag)])
  {
    var child := Node(kind, name, [], []);
    var script := Node(ElementNode, Script, [], [child]);
    var own := NodeFindings(child, Script, tracer, ev, pretty);
    assert Findings(child, Script, tracer, ev, pretty) == own + [] + [];
    assert ChildFindings(script.children, Script, tracer, ev, pretty) == own + [];
    assert NodeFindings(script, "", tracer, ev, pretty) == [];
    assert Findings(script, "", tracer, ev, pretty) == [] + [] + (own + []);
  }

  /** Under a "response" event a named node holding the tracer is rated 0 and
      keeps the zero reason, whatever its kind and parent. */
  lemma NamedNodeInResponse(n: Node, parentName: string, tracer: string, ev: TracerEvent,
                            pretty: string -> string)
    requires IsNamed(n.kind) && Contains(n.data, tracer)
    requires ev.eventType == Response
    ensures var f := Findings(n, parentName, tracer, ev, pretty)[0];
            f.location == NodeName && f.severity == 0 && f.reason == Unclassified
  {
  }

  /** An `href` attribute whose value starts with the tracer is rated 2, or 1
      under a "response" event. */
  lemma HrefValueFinding(tag: string, ns: string, v: string, tracer: string, ev: TracerEvent,
                         pretty: string -> string)
    requires HasPrefix(v, tracer) && !Contains(tag, tracer) && !Contains(Href, tracer)
    ensures Locate(Node(ElementNode, tag, [Attribute(ns, Href, v)], []), tracer, ev, pretty).found
         == if ev.eventType == Response then [DOMContext(ev.id, tag, AttrVal, v, 1, AttributeValueHTTPResponse)]
            else [DOMContext(ev.id, tag, AttrVal, v, 2, AttributeValueStartHref)]
  {
    PrefixIsContained(v, tracer);
    var n := Node(ElementNode, tag, [Attribute(ns, Href, v)], []);
    var own := AttrFinding(n.attrs[0], tag, tracer, ev);
    assert AttrFindings(n.attrs, tag, tracer, ev) == own + [];
    assert Findings(n, "", tracer, ev, pretty) == [] + (own + []) + [];
  }

  /** A value holding the tracer in an event-handler attribute (`on…`) is
      rated 2 outside "response" events. */
  lemma HandlerValueFinding(tag: string, ns: string, key: string, v: string, tracer: string,
                            ev: TracerEvent, pretty: string -> string)
    requires HasPrefix(key, OnPrefix)
    requires Contains(v, tracer) && !Contains(key, tracer) && !Contains(tag, tracer)
    requires ev.eventType != Response
    ensures Locate(Node(ElementNode, tag, [Attribute(ns, key, v)], []), tracer, ev, pretty).found
         == [DOMContext(ev.id, tag, AttrVal, v, 2, AttributeValueOnEventHandler)]
  {
    assert key[0] == OnPrefix[0] != Href[0];
    var n := Node(ElementNode, tag, [Attribute(ns, key, v)], []);
    var own := AttrFinding(n.attrs[0], tag, tracer, ev);
    assert AttrFindings(n.attrs, tag, tracer, ev) == own + [];
    assert Findings(n, "", tracer, ev, pretty) == [] + (own + []) + [];
  }

  /** An attribute whose name holds the tracer gives one Attr finding and no
      AttrVal finding, even when its value holds the tracer too. */
  lemma NameMatchExcludesValue(a: Attribute, nodeName: string, tracer: string, ev: TracerEvent)
    requires Contains(a.key, tracer)
    ensures var fs := AttrFinding(a, nodeName, tracer, ev);
            |fs| == 1 && fs[0].location == Attr && fs[0].eventContext == a.val
            && fs[0].severity == (if ev.eventType == Response then 1 else 3)
  {
  }
}
