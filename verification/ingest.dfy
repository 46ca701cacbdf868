/** Event ingestion: the post-pass over the classifier's findings that
    updates the tracer's severity watermark, and the decisions `AddEvent`
    takes about what to store, cache and announce.  Store writes and
    subscriber notifications are returned as a list of effects. */
module Ingest {
  import opened Types
  import opened Classifier

  /** The event type whose findings are all rated 0. */
  const TextEvent: string := "text"

  /** Threshold at or above which a finding raises an alert. */
  const AlertSeverity: nat := 2

  datatype Effect =
    | SetOverallSeverity(tracerId: Uint, severity: nat)
    | SetHasTracerEvents(tracerId: Uint, value: bool)
    | NotifyTracer(tracer: Tracer)
    | CreateEvent(event: TracerEvent)
    | CacheAppend(key: int, event: TracerEvent)
    | NotifyEvent(event: TracerEvent)
    | NotifyAlert(tracer: Tracer, event: TracerEvent)

  datatype Error = ParseError | StoreError

  /** Result of the post-pass: the event with its findings attached, the
      tracer row as the store holds it afterwards, and the effects issued. */
  datatype Contexts = Contexts(event: TracerEvent, stored: Tracer, effects: seq<Effect>)

  function ZeroSeverities(fs: seq<DOMContext>): (r: seq<DOMContext>)
    ensures |r| == |fs|
    ensures forall i :: 0 <= i < |fs| ==> r[i] == fs[i].(severity := 0)
    ensures MaxSev(r) == 0 && !HasAlert(r)
  {
    seq(|fs|, i requires 0 <= i < |fs| => fs[i].(severity := 0))
  }

  /** The tracer row after an event with findings whose highest severity is
      `highest`: the watermark is raised only when strictly exceeded, the
      first event sets `hasTracerEvents`, each change is written, and
      subscribers hear of the tracer when either changed. */
  function RecordSeverity(tracer: Tracer, highest: nat): (r: (Tracer, seq<Effect>))
    ensures r.0 == tracer.(overallSeverity := Raise(tracer.overallSeverity, highest), hasTracerEvents := true)
    ensures SetOverallSeverity(tracer.id, r.0.overallSeverity) in r.1
            <==> r.0.overallSeverity != tracer.overallSeverity
    ensures SetHasTracerEvents(tracer.id, true) in r.1 <==> !tracer.hasTracerEvents
    ensures NotifyTracer(r.0) in r.1 <==> r.0 != tracer
    ensures CountAlerts(r.1) == 0
    ensures |r.1| == (if r.0.overallSeverity != tracer.overallSeverity then 1 else 0)
                   + (if !tracer.hasTracerEvents then 1 else 0)
                   + (if r.0 != tracer then 1 else 0)
    ensures forall e :: e in r.1 ==>
              || e == SetOverallSeverity(tracer.id, r.0.overallSeverity)
              || e == SetHasTracerEvents(tracer.id, true)
              || e == NotifyTracer(r.0)
  {
    var hadEvents := tracer.hasTracerEvents;
    var newSev := highest > tracer.overallSeverity;
    var stored := tracer.(hasTracerEvents := true,
                          overallSeverity := if newSev then highest else tracer.overallSeverity);
    var effects :=
      (if newSev then [SetOverallSeverity(tracer.id, highest)] else [])
      + (if !hadEvents then [SetHasTracerEvents(tracer.id, stored.hasTracerEvents)] else [])
      + (if !hadEvents || newSev then [NotifyTracer(stored)] else []);
    NoAlerts(effects);
    (stored, effects)
  }

  /** The findings after the override for "text" events, which rates them
      all 0. */
  function Rate(eventType: string, found: seq<DOMContext>): (r: seq<DOMContext>)
    ensures |r| == |found|
    ensures forall i :: 0 <= i < |found| ==>
              r[i] == if eventType == TextEvent then found[i].(severity := 0) else found[i]
    ensures eventType == TextEvent ==> MaxSev(r) == 0
  {
    if eventType == TextEvent then ZeroSeverities(found) else found
  }

  /** Classifies the parsed document `doc` of `event` and folds the result
      into the tracer's watermark.  Without findings nothing changes. */
  function DomContexts(event: TracerEvent, tracer: Tracer, doc: Node, pretty: string -> string): (r: Contexts)
    ensures var w := Locate(doc, tracer.tracerPayload, event, pretty);
            && (w.found == [] ==> r == Contexts(event, tracer, []))
            && (w.found != [] ==>
                  && r.event == event.(contexts := Rate(event.eventType, w.found))
                  && r.stored.overallSeverity == Raise(tracer.overallSeverity, MaxSev(r.event.contexts))
                  && r.stored.hasTracerEvents)
    ensures r.stored == tracer.(overallSeverity := r.stored.overallSeverity, hasTracerEvents := r.stored.hasTracerEvents)
    ensures r.stored.overallSeverity >= tracer.overallSeverity
    ensures tracer.hasTracerEvents ==> r.stored.hasTracerEvents
    ensures event.eventType == TextEvent ==> r.stored.overallSeverity == tracer.overallSeverity
    ensures SetOverallSeverity(tracer.id, r.stored.overallSeverity) in r.effects
            <==> r.stored.overallSeverity != tracer.overallSeverity
    ensures SetHasTracerEvents(tracer.id, true) in r.effects
            <==> r.stored.hasTracerEvents != tracer.hasTracerEvents
    ensures NotifyTracer(r.stored) in r.effects <==> r.stored != tracer
    ensures CountAlerts(r.effects) == 0
    ensures |r.effects| == (if r.stored.overallSeverity != tracer.overallSeverity then 1 else 0)
                         + (if r.stored.hasTracerEvents != tracer.hasTracerEvents then 1 else 0)
                         + (if r.stored != tracer then 1 else 0)
    ensures forall e :: e in r.effects ==>
              || e == SetOverallSeverity(tracer.id, r.stored.overallSeverity)
              || e == SetHasTracerEvents(tracer.id, true)
              || e == NotifyTracer(r.stored)
  {
    var w := Locate(doc, tracer.tracerPayload, event, pretty);
    if |w.found| == 0 then Contexts(event, tracer, [])
    else
      var found := Rate(event.eventType, w.found);
      var highest := if event.eventType == TextEvent then 0 else w.highest;
      assert highest == MaxSev(found);
      var u := RecordSeverity(tracer, highest);
      Contexts(event.(contexts := found), u.0, u.1)
  }

  // ---------------------------------------------------------------------------
  // Alert decision
  // ---------------------------------------------------------------------------

  /** The scan for a finding rated `AlertSeverity` or higher; it stops at the
      first one. */
  function HasAlert(cs: seq<DOMContext>): (b: bool)
    ensures b <==> exists i :: 0 <= i < |cs| && cs[i].severity >= AlertSeverity
    decreases |cs|
  {
    if cs == [] then false
    else if cs[0].severity >= AlertSeverity then true
    else
      assert forall i :: 1 <= i < |cs| ==> cs[i] == cs[1..][i - 1];
      HasAlert(cs[1..])
  }

  /** Number of alert notifications among the effects. */
  function CountAlerts(effects: seq<Effect>): nat
    decreases |effects|
  {
    if effects == [] then 0
    else (if effects[0].NotifyAlert? then 1 else 0) + CountAlerts(effects[1..])
  }

  lemma {:induction false} CountAlertsConcat(a: seq<Effect>, b: seq<Effect>)
    ensures CountAlerts(a + b) == CountAlerts(a) + CountAlerts(b)
    decreases |a|
  {
    if a == [] {
      assert a + b == b;
    } else {
      assert (a + b)[1..] == a[1..] + b;
      CountAlertsConcat(a[1..], b);
    }
  }

  lemma NoAlerts(effects: seq<Effect>)
    requires forall i :: 0 <= i < |effects| ==> !effects[i].NotifyAlert?
    ensures CountAlerts(effects) == 0
    decreases |effects|
  {
    if effects != [] {
      NoAlerts(effects[1..]);
    }
  }

  // ---------------------------------------------------------------------------
  // AddEvent
  // ---------------------------------------------------------------------------

  /** Outcome of one `AddEvent`: the effects issued (also on failure, for the
      steps completed before it) and the stored event or the error. */
  datatype Added = Added(effects: seq<Effect>, result: Result<TracerEvent, Error>)

  /** What follows a successful insert of `copy`: the cache append under the
      tracer id as an `int`, the event notification, and one alert when a
      finding is rated 2 or more. */
  function Announce(tracer: Tracer, copy: TracerEvent): (post: seq<Effect>)
    ensures CacheAppend(GoInt(tracer.id), copy) in post
    ensures NotifyEvent(copy) in post
    ensures NotifyAlert(tracer, copy) in post <==> HasAlert(copy.contexts)
    ensures CountAlerts(post) == if HasAlert(copy.contexts) then 1 else 0
    ensures post[..2] == [CacheAppend(GoInt(tracer.id), copy), NotifyEvent(copy)]
    ensures forall k :: 2 <= k < |post| ==> post[k] == NotifyAlert(tracer, copy)
    ensures |post| == 2 + CountAlerts(post)
    ensures forall k :: 0 <= k < |post| ==> post[k].CacheAppend? || post[k].NotifyEvent? || post[k].NotifyAlert?
  {
    var alert := if HasAlert(copy.contexts) then [NotifyAlert(tracer, copy)] else [];
    var post := [CacheAppend(GoInt(tracer.id), copy), NotifyEvent(copy)] + alert;
    CountAlertsConcat([CacheAppend(GoInt(tracer.id), copy), NotifyEvent(copy)], alert);
    NoAlerts([CacheAppend(GoInt(tracer.id), copy), NotifyEvent(copy)]);
    post
  }

  /** Everything after classification: create the event row without its raw
      event, then, once the store has given it an id, announce it.
      `createdId` is the id the store assigns, or `None` if the insert fails. */
  function Store(tracer: Tracer, event: TracerEvent, pre: seq<Effect>, createdId: Option<nat>): (r: Added)
    ensures |r.effects| > |pre| && r.effects[..|pre|] == pre
    ensures r.effects[|pre|] == CreateEvent(event.(rawEvent := BlankRawEvent))
    ensures createdId.None? ==> r == Added(pre + [CreateEvent(event.(rawEvent := BlankRawEvent))], Failure(StoreError))
    ensures createdId.Some? ==>
              && r.result == Success(event.(id := createdId.value))
              && r.effects[|pre| + 1..] == Announce(tracer, r.result.value)
    ensures CountAlerts(r.effects) == CountAlerts(pre) + (if createdId.Some? && HasAlert(event.contexts) then 1 else 0)
  {
    var create := CreateEvent(event.(rawEvent := BlankRawEvent));
    NoAlerts([create]);
    CountAlertsConcat(pre, [create]);
    match createdId
    case None => Added(pre + [create], Failure(StoreError))
    case Some(id) =>
      var copy := event.(id := id);
      var post := Announce(tracer, copy);
      CountAlertsConcat(pre + [create], post);
      assert (pre + [create] + post)[|pre| + 1..] == post;
      assert (pre + [create] + post)[..|pre|] == pre;
      Added(pre + [create] + post, Success(copy))
  }

  /** `AddEvent`: only an HTML raw event is parsed and classified; a parse
      failure aborts before anything is written.  `parse` stands for the HTML
      parser and `pretty` for the snippet formatter. */
  function AddEvent(tracer: Tracer, event: TracerEvent, parse: string -> Option<Node>,
                    pretty: string -> string, createdId: Option<nat>): (r: Added)
    ensures event.rawEvent.format == HTML && parse(event.rawEvent.data).None? ==>
              r == Added([], Failure(ParseError))
    ensures createdId.None? ==> r.result.Failure?
    ensures createdId.Some? && r.result.Success? ==> r.result.value.id == createdId.value
    ensures r.result.Success? ==>
              && CacheAppend(GoInt(tracer.id), r.result.value) in r.effects
              && NotifyEvent(r.result.value) in r.effects
  {
    if event.rawEvent.format == HTML then
      match parse(event.rawEvent.data)
      case None => Added([], Failure(ParseError))
      case Some(doc) =>
        var d := DomContexts(event, tracer, doc, pretty);
        var r := Store(tracer, d.event, d.effects, createdId);
        InSuffix(r.effects, |d.effects| + 1);
        r
    else
      var r := Store(tracer, event, [], createdId);
      InSuffix(r.effects, 1);
      r
  }

  /** Only an HTML event is classified and can touch the tracer row: any other
      event is stored with the findings it came with and issues no tracer
      write or tracer notification. */
  lemma AddEventClassifiesOnlyHtml(tracer: Tracer, event: TracerEvent, parse: string -> Option<Node>,
                                   pretty: string -> string, createdId: Option<nat>)
    ensures var r := AddEvent(tracer, event, parse, pretty, createdId);
            && (event.rawEvent.format != HTML ==>
                  && (createdId.Some? ==> r.result == Success(event.(id := createdId.value)))
                  && forall e :: e in r.effects ==>
                       !e.SetOverallSeverity? && !e.SetHasTracerEvents? && !e.NotifyTracer?)
            && (event.rawEvent.format == HTML && parse(event.rawEvent.data).Some? && createdId.Some? ==>
                  r.result == Success(DomContexts(event, tracer, parse(event.rawEvent.data).value, pretty)
                                        .event.(id := createdId.value)))
  {
    if event.rawEvent.format != HTML {
      StoreLeavesTracer(tracer, event, createdId);
    }
  }

  /** Storing an event with no earlier effects issues no tracer write and no
      tracer notification. */
  lemma StoreLeavesTracer(tracer: Tracer, event: TracerEvent, createdId: Option<nat>)
    ensures forall e :: e in Store(tracer, event, [], createdId).effects ==>
              !e.SetOverallSeverity? && !e.SetHasTracerEvents? && !e.NotifyTracer?
  {
    var r := Store(tracer, event, [], createdId);
    forall e | e in r.effects
      ensures !e.SetOverallSeverity? && !e.SetHasTracerEvents? && !e.NotifyTracer?
    {
      var j :| 0 <= j < |r.effects| && r.effects[j] == e;
      if j > 0 {
        assert e in r.effects[1..] by { assert r.effects[1..][j - 1] == e; }
      }
    }
  }

  /** Exactly one alert is raised when the stored event has a finding rated 2
      or more, and none otherwise (in particular none on failure). */
  lemma AddEventAlertsOnce(tracer: Tracer, event: TracerEvent, parse: string -> Option<Node>,
                           pretty: string -> string, createdId: Option<nat>)
    ensures var r := AddEvent(tracer, event, parse, pretty, createdId);
            CountAlerts(r.effects) == if r.result.Success? && HasAlert(r.result.value.contexts) then 1 else 0
  {
    var r := AddEvent(tracer, event, parse, pretty, createdId);
    if event.rawEvent.format != HTML {
      assert r == Store(tracer, event, [], createdId);
    } else if parse(event.rawEvent.data).Some? {
      var d := DomContexts(event, tracer, parse(event.rawEvent.data).value, pretty);
      assert r == Store(tracer, d.event, d.effects, createdId);
    }
  }

  lemma InSuffix<T>(s: seq<T>, k: nat)
    requires k <= |s|
    ensures forall x :: x in s[k..] ==> x in s
    ensures forall x :: x in s ==> x in s[..k] || x in s[k..]
  {
    assert s == s[..k] + s[k..];
  }

  // ---------------------------------------------------------------------------
  // The watermark over a sequence of events
  // ---------------------------------------------------------------------------

  /** One captured event of a tracer together with its parsed document. */
  datatype Capture = Capture(event: TracerEvent, doc: Node)

  /** The findings an event contributes to its tracer, after the "text" override. */
  function Rated(payload: string, c: Capture, pretty: string -> string): seq<DOMContext>
  {
    Rate(c.event.eventType, Locate(c.doc, payload, c.event, pretty).found)
  }

  /** Highest severity among all findings of the captures. */
  function Observed(payload: string, cs: seq<Capture>, pretty: string -> string): nat
    decreases |cs|
  {
    if cs == [] then 0
    else Raise(MaxSev(Rated(payload, cs[0], pretty)), Observed(payload, cs[1..], pretty))
  }

  /** Some capture has at least one finding. */
  ghost predicate AnyFound(payload: string, cs: seq<Capture>, pretty: string -> string)
  {
    exists i :: 0 <= i < |cs| && Rated(payload, cs[i], pretty) != []
  }

  /** The tracer row after the post-pass of each capture in turn, each seeing
      the row as the previous one left it: one caller at a time, with a fresh
      row.  A caller holding a stale copy can lower the stored watermark,
      because the severity write is not a maximum with the stored value. */
  function Replay(tracer: Tracer, cs: seq<Capture>, pretty: string -> string): Tracer
    decreases |cs|
  {
    if cs == [] then tracer
    else Replay(DomContexts(cs[0].event, tracer, cs[0].doc, pretty).stored, cs[1..], pretty)
  }

  /** What one post-pass does to the tracer row, in terms of the findings
      it folds in. */
  lemma PostPassStored(tracer: Tracer, c: Capture, pretty: string -> string)
    ensures DomContexts(c.event, tracer, c.doc, pretty).stored
         == tracer.(overallSeverity := Raise(tracer.overallSeverity, MaxSev(Rated(tracer.tracerPayload, c, pretty))),
                    hasTracerEvents := tracer.hasTracerEvents || Rated(tracer.tracerPayload, c, pretty) != [])
  {
    var w := Locate(c.doc, tracer.tracerPayload, c.event, pretty);
    if w.found == [] {
      assert Rated(tracer.tracerPayload, c, pretty) == [];
    }
  }

  /** The watermark invariant: after any sequence of events the overall
      severity is the maximum of its start value and every finding folded in. */
  lemma {:induction false} ReplayWatermark(tracer: Tracer, cs: seq<Capture>, pretty: string -> string)
    ensures var t := Replay(tracer, cs, pretty);
            && t == tracer.(overallSeverity := t.overallSeverity, hasTracerEvents := t.hasTracerEvents)
            && t.overallSeverity == Raise(tracer.overallSeverity, Observed(tracer.tracerPayload, cs, pretty))
    decreases |cs|
  {
    if cs != [] {
      PostPassStored(tracer, cs[0], pretty);
      var d := DomContexts(cs[0].event, tracer, cs[0].doc, pretty);
      ReplayWatermark(d.stored, cs[1..], pretty);
    }
  }

  lemma AnyFoundCons(payload: string, cs: seq<Capture>, pretty: string -> string)
    requires cs != []
    ensures AnyFound(payload, cs, pretty)
            <==> Rated(payload, cs[0], pretty) != [] || AnyFound(payload, cs[1..], pretty)
  {
    if AnyFound(payload, cs[1..], pretty) {
      var i :| 0 <= i < |cs[1..]| && Rated(payload, cs[1..][i], pretty) != [];
      assert cs[1..][i] == cs[i + 1];
    }
    if AnyFound(payload, cs, pretty) && Rated(payload, cs[0], pretty) == [] {
      var i :| 0 <= i < |cs| && Rated(payload, cs[i], pretty) != [];
      assert cs[i] == cs[1..][i - 1];
    }
  }

  /** `hasTracerEvents` ends true exactly when it started true or some event
      had a finding. */
  lemma {:induction false} ReplayHasEvents(tracer: Tracer, cs: seq<Capture>, pretty: string -> string)
    ensures Replay(tracer, cs, pretty).hasTracerEvents
            <==> tracer.hasTracerEvents || AnyFound(tracer.tracerPayload, cs, pretty)
    decreases |cs|
  {
    if cs != [] {
      PostPassStored(tracer, cs[0], pretty);
      var next := DomContexts(cs[0].event, tracer, cs[0].doc, pretty).stored;
      ReplayHasEvents(next, cs[1..], pretty);
      AnyFoundCons(tracer.tracerPayload, cs, pretty);
    }
  }

  /** Folding in fewer events never observes a higher severity. */
  lemma {:induction false} ObservedPrefix(payload: string, cs: seq<Capture>, k: nat, pretty: string -> string)
    requires k <= |cs|
    ensures Observed(payload, cs[..k], pretty) <= Observed(payload, cs, pretty)
    decreases k
  {
    if k > 0 {
      assert cs[..k][0] == cs[0];
      assert cs[..k][1..] == cs[1..][..k - 1];
      ObservedPrefix(payload, cs[1..], k - 1, pretty);
    }
  }

  lemma AnyFoundPrefix(payload: string, cs: seq<Capture>, k: nat, pretty: string -> string)
    requires k <= |cs|
    ensures AnyFound(payload, cs[..k], pretty) ==> AnyFound(payload, cs, pretty)
  {
    if AnyFound(payload, cs[..k], pretty) {
      var i :| 0 <= i < k && Rated(payload, cs[..k][i], pretty) != [];
      assert cs[..k][i] == cs[i];
    }
  }

  /** The overall severity never decreases and `hasTracerEvents` never resets
      along a sequence of events. */
  lemma ReplayMonotone(tracer: Tracer, cs: seq<Capture>, k: nat, pretty: string -> string)
    requires k <= |cs|
    ensures Replay(tracer, cs[..k], pretty).overallSeverity <= Replay(tracer, cs, pretty).overallSeverity
    ensures Replay(tracer, cs[..k], pretty).hasTracerEvents ==> Replay(tracer, cs, pretty).hasTracerEvents
  {
    ReplayWatermark(tracer, cs[..k], pretty);
    ReplayWatermark(tracer, cs, pretty);
    ObservedPrefix(tracer.tracerPayload, cs, k, pretty);
    ReplayHasEvents(tracer, cs[..k], pretty);
    ReplayHasEvents(tracer, cs, pretty);
    AnyFoundPrefix(tracer.tracerPayload, cs, k, pretty);
  }
}
