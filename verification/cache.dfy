/** The tracer-event cache, run one message at a time: a map from tracer id
    to the events seen for it, filled from the store on a read that finds no
    events, appended to by updates, and emptied by a read of the sentinel -1.
    The store load is the parameter `load`. */
module EventCache {
  import opened Types

  type Cache<E> = map<int, seq<E>>

  /** The read key that flushes the cache instead of reading it. */
  const Flush: int := -1

  datatype Msg<E> = Read(key: int) | Update(id: int, event: E)

  /** The map after one message, the reply sent (if any), and the tracer id
      loaded from the store (if any). */
  datatype Step<E> = Step(cache: Cache<E>, reply: Option<seq<E>>, loaded: Option<Uint>)

  /** The events cached for `k`; a missing key reads as no events. */
  function Lookup<E>(c: Cache<E>, k: int): seq<E>
  {
    if k in c then c[k] else []
  }

  /** One message.  A read loads whenever the cached list is empty, so a key
      the store has no events for is loaded again on every read. */
  function Handle<E>(c: Cache<E>, m: Msg<E>, load: Uint -> seq<E>): (r: Step<E>)
    ensures m.Read? && m.key == Flush ==> r.cache == map[] && r.reply.None? && r.loaded.None?
    ensures m.Read? && m.key != Flush && Lookup(c, m.key) == [] ==>
              && r.loaded == Some(GoUint(m.key))
              && r.reply == Some(load(GoUint(m.key)))
              && r.cache == c[m.key := load(GoUint(m.key))]
    ensures m.Read? && m.key != Flush && Lookup(c, m.key) != [] ==>
              r == Step(c, Some(Lookup(c, m.key)), None)
    ensures m.Update? ==>
              && r.reply.None? && r.loaded.None?
              && r.cache.Keys == c.Keys + {m.id}
              && Lookup(r.cache, m.id) == Lookup(c, m.id) + [m.event]
              && forall k :: k in c && k != m.id ==> r.cache[k] == c[k]
  {
    match m
    case Read(i) =>
      if i == Flush then Step(map[], None, None)
      else if |Lookup(c, i)| == 0 then
        var events := load(GoUint(i));
        Step(c[i := events], Some(events), Some(GoUint(i)))
      else Step(c, Some(c[i]), None)
    case Update(id, e) =>
      if id in c then Step(c[id := c[id] + [e]], None, None)
      else Step(c[id := [e]], None, None)
  }

  /** The cache after a run of messages, every reply in order, and every
      store load in order. */
  datatype Trace<E> = Trace(cache: Cache<E>, replies: seq<seq<E>>, loads: seq<Uint>)

  function Run<E>(c: Cache<E>, ms: seq<Msg<E>>, load: Uint -> seq<E>): (t: Trace<E>)
    ensures |t.loads| <= |t.replies| <= |ms|
    decreases |ms|
  {
    if ms == [] then Trace(c, [], [])
    else
      var s := Handle(c, ms[0], load);
      var t := Run(s.cache, ms[1..], load);
      Trace(t.cache, AsSeq(s.reply) + t.replies, AsSeq(s.loaded) + t.loads)
  }

  /** Number of messages that are reads of a real key. */
  function Reads<E>(ms: seq<Msg<E>>): nat
    decreases |ms|
  {
    if ms == [] then 0
    else (if ms[0].Read? && ms[0].key != Flush then 1 else 0) + Reads(ms[1..])
  }

  /** Every read gets exactly one reply and causes at most one load; a flush
      and an update get no reply. */
  lemma {:induction false} RepliesMatchReads<E>(c: Cache<E>, ms: seq<Msg<E>>, load: Uint -> seq<E>)
    ensures |Run(c, ms, load).replies| == Reads(ms)
    ensures |Run(c, ms, load).loads| <= Reads(ms)
    decreases |ms|
  {
    if ms != [] {
      RepliesMatchReads(Handle(c, ms[0], load).cache, ms[1..], load);
    }
  }

  /** The events appended to `k` by the updates in `ms`, in order. */
  function Appended<E>(ms: seq<Msg<E>>, k: int): seq<E>
    decreases |ms|
  {
    if ms == [] then []
    else (if ms[0].Update? && ms[0].id == k then [ms[0].event] else []) + Appended(ms[1..], k)
  }

  /** `ms` neither reads `k` nor flushes. */
  ghost predicate LeavesAlone<E>(ms: seq<Msg<E>>, k: int)
  {
    forall j :: 0 <= j < |ms| ==> !(ms[j].Read? && (ms[j].key == k || ms[j].key == Flush))
  }

  /** One message that neither reads `k` nor flushes extends `k`'s list by
      the event it appends to `k`, if any. */
  lemma HandleLeavesAlone<E>(c: Cache<E>, m: Msg<E>, k: int, load: Uint -> seq<E>)
    requires !(m.Read? && (m.key == k || m.key == Flush))
    ensures Lookup(Handle(c, m, load).cache, k)
         == Lookup(c, k) + (if m.Update? && m.id == k then [m.event] else [])
  {
    var r := Handle(c, m, load);
    if m.Update? && m.id != k {
      assert k in r.cache <==> k in c;
    } else if m.Read? {
      assert k in r.cache <==> k in c;
    }
  }

  lemma LeavesAloneTail<E>(ms: seq<Msg<E>>, k: int)
    requires ms != [] && LeavesAlone(ms, k)
    ensures LeavesAlone(ms[1..], k)
    ensures !(ms[0].Read? && (ms[0].key == k || ms[0].key == Flush))
  {
    forall j | 0 <= j < |ms[1..]|
      ensures !(ms[1..][j].Read? && (ms[1..][j].key == k || ms[1..][j].key == Flush))
    {
      assert ms[1..][j] == ms[j + 1];
    }
  }

  /** Updates to `k` accumulate in arrival order, whatever reads of other
      keys and updates of other keys are interleaved with them. */
  lemma {:induction false} UpdatesAccumulate<E>(c: Cache<E>, ms: seq<Msg<E>>, k: int, load: Uint -> seq<E>)
    requires LeavesAlone(ms, k)
    ensures Lookup(Run(c, ms, load).cache, k) == Lookup(c, k) + Appended(ms, k)
    decreases |ms|
  {
    if ms != [] {
      var next := Handle(c, ms[0], load).cache;
      var own := if ms[0].Update? && ms[0].id == k then [ms[0].event] else [];
      LeavesAloneTail(ms, k);
      HandleLeavesAlone(c, ms[0], k, load);
      UpdatesAccumulate(next, ms[1..], k, load);
      Assoc(Lookup(c, k), own, Appended(ms[1..], k));
    }
  }

  /** An update that arrives before the first read of a key hides the store:
      that read replies with just the appended events and loads nothing. */
  lemma UpdateBeforeFirstRead<E>(ms: seq<Msg<E>>, k: int, load: Uint -> seq<E>)
    requires k != Flush
    requires LeavesAlone(ms, k)
    requires Appended(ms, k) != []
    ensures var s := Handle(Run(map[], ms, load).cache, Read(k), load);
            s.reply == Some(Appended(ms, k)) && s.loaded.None?
  {
    var empty: Cache<E> := map[];
    UpdatesAccumulate(empty, ms, k, load);
    assert Lookup(empty, k) + Appended(ms, k) == Appended(ms, k);
  }

  /** After a flush, the next read of any key loads it from the store once and
      replies with what the store holds. */
  lemma FlushThenRead<E>(c: Cache<E>, k: int, load: Uint -> seq<E>)
    requires k != Flush
    ensures Run(c, [Read(Flush), Read(k)], load)
         == Trace(map[k := load(GoUint(k))], [load(GoUint(k))], [GoUint(k)])
  {
    var ms: seq<Msg<E>> := [Read(Flush), Read(k)];
    var s1 := Handle(c, ms[0], load);
    var s2 := Handle(s1.cache, ms[1], load);
    assert ms[1..][1..] == [];
    assert Run(s1.cache, ms[1..], load) == Trace(s2.cache, AsSeq(s2.reply), AsSeq(s2.loaded));
  }

  /** A read that installs a non-empty list is followed by a cache hit: the
      same reply again, with no further load. */
  lemma RepeatedReadHits<E>(c: Cache<E>, k: int, load: Uint -> seq<E>)
    requires k != Flush
    requires Lookup(c, k) != [] || load(GoUint(k)) != []
    ensures var t := Run(c, [Read(k), Read(k)], load);
            && |t.replies| == 2 && t.replies[0] == t.replies[1]
            && t.loads == (if Lookup(c, k) == [] then [GoUint(k)] else [])
  {
    var ms: seq<Msg<E>> := [Read(k), Read(k)];
    var s1 := Handle(c, ms[0], load);
    var s2 := Handle(s1.cache, ms[1], load);
    assert ms[1..][1..] == [];
    assert Run(s1.cache, ms[1..], load) == Trace(s2.cache, AsSeq(s2.reply), AsSeq(s2.loaded));
  }

  /** A key the store has no events for is loaded again on every read. */
  lemma EmptyLoadRepeats<E>(c: Cache<E>, k: int, load: Uint -> seq<E>)
    requires k != Flush
    requires Lookup(c, k) == [] && load(GoUint(k)) == []
    ensures Run(c, [Read(k), Read(k)], load).loads == [GoUint(k), GoUint(k)]
  {
    var ms: seq<Msg<E>> := [Read(k), Read(k)];
    var s1 := Handle(c, ms[0], load);
    var s2 := Handle(s1.cache, ms[1], load);
    assert ms[1..][1..] == [];
    assert Run(s1.cache, ms[1..], load) == Trace(s2.cache, AsSeq(s2.reply), AsSeq(s2.loaded));
  }

  // ---------------------------------------------------------------------------
  // Callers
  // ---------------------------------------------------------------------------

  /** `getTracerEventsCache`: a read of the tracer id converted to `int`.
      The reply is the cached list, or else what the store holds for that
      same tracer, which is then cached. */
  function GetEvents<E>(c: Cache<E>, tracerId: Uint, load: Uint -> seq<E>): (r: Step<E>)
    ensures GoInt(tracerId) != Flush ==> r.reply.Some?
    ensures r.loaded.Some? ==> r.loaded.value == tracerId
    ensures r.reply.Some? ==> r.reply.value != [] || load(tracerId) == []
    ensures var k := GoInt(tracerId);
            k != Flush ==>
              && r.reply == Some(if Lookup(c, k) != [] then Lookup(c, k) else load(tracerId))
              && r.cache == c[k := r.reply.value]
              && r.loaded == (if Lookup(c, k) != [] then None else Some(tracerId))
  {
    UintRoundTrip(tracerId);
    Handle(c, Read(GoInt(tracerId)), load)
  }

  /** `ClearTracerEventCache`: the flush sentinel. */
  function ClearCache<E>(c: Cache<E>, load: Uint -> seq<E>): (r: Step<E>)
    ensures r.cache == map[] && r.reply.None? && r.loaded.None?
  {
    Handle(c, Read(Flush), load)
  }

  /** The largest tracer id converts to the sentinel: reading its events
      flushes the cache and sends no reply. */
  lemma LargestIdFlushes<E>(c: Cache<E>, load: Uint -> seq<E>)
    ensures GetEvents(c, TwoTo64 - 1, load) == Step(map[], None, None)
  {
  }
}
