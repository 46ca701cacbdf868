# Tracer location classifier and event cache (Dafny model)

This project models the analysis core of a dynamic XSS detection backend. A
client injects a unique *tracer* string into application inputs. When the
string resurfaces in a captured HTTP response or DOM snapshot, the backend
parses the capture as HTML and walks the tree. It records every place the
tracer occurs as a *DOM context* (a finding). Each finding has a location
kind, the enclosing node name, a snippet, a severity from 0 to 3 and a
reason code. The backend then folds the highest severity into the tracer's
`OverallSeverity` watermark, stores the event and announces it. Severity 2
and above raises an alert. Events per tracer are kept in an in-memory cache
that is filled from the store on demand.

Everything modelled comes from `api/common/event.go`:

- `strings.dfy` (`Strings`): Go's `strings.Contains` and `strings.HasPrefix`, with
  `Contains` proved equal to the textbook substring definition.
- `types.dfy` (`Types`): the parsed HTML tree, findings, raw events, tracer
  events and tracers. It also holds Go's `int`↔`uint` conversions on a 64-bit
  platform, written out explicitly.
- `classifier.dfy` (`Classifier`): `getTracerLocation`, in two forms:
  - `Visit` is written step by step like the source. It keeps the per-call
    `sev`/`reason` locals, which are not reset between attributes, and folds
    `sev` into `highest` after every attribute.
  - `Findings` is a stateless pre-order reference built from two rule tables
    (`NodeVerdict`, `AttrVerdict`).

  `VisitIsPreorder` proves the two agree. It also proves that `highest` ends
  as the maximum of its start value and every emitted severity.
- `ingest.dfy` (`Ingest`): the post-pass of `getDOMContexts` (with the parse
  step removed) and the decisions of `AddEvent`. Store writes, cache
  appends and subscriber notifications are returned as a list of `Effect`
  values. It also folds the watermark over a sequence of events.
- `cache.dfy` (`EventCache`): the `tracerEventCache` goroutine as a
  sequential transition function `Handle` over `map<int, seq<E>>`. It has
  two messages, `Read(i)` and `Update(id, e)`; `Read(-1)` is the flush
  sentinel. `Run` handles a message sequence. The store load is the
  function parameter `load`.

External collaborators are parameters: the HTML parser is
`parse: string -> Option<Node>` and the snippet formatter `gohtml.Format` is
`pretty: string -> string`. Both are uninterpreted.

Behaviours of `api/common/event.go` that the model keeps on purpose:

- The cache reloads whenever the cached list is *empty*, not only when the key
  is absent. So a tracer whose stored event list is empty is loaded from the
  store on every read (`EmptyLoadRepeats`). Also, an `Update` that arrives
  before the first `Read` of a key hides the store contents: that read
  replies with only the appended events and does no load
  (`UpdateBeforeFirstRead`).
- A document, element or doctype node that matches under a `"response"`
  event keeps the zero value of the reason code, modelled as
  `Unclassified`. So does a matching document or doctype node under any
  other event when its parent is not a `script` element: it is emitted as
  NodeName with severity 0.
- The `sev` local is not reset between attributes. The model keeps it.
  `VisitAttrsAgrees` proves the stale value never exceeds `highest`, so
  emitted severities and `highest` are unaffected.
- The alert notification of `AddEvent` carries the tracer as the caller
  passed it, not the row the post-pass raised. `getDOMContexts` receives
  the tracer by value.
- A tracer id of 2^64−1 converts to the `int` −1, which is the flush
  sentinel. Reading that tracer's events empties the cache and sends no
  reply (`LargestIdFlushes`).

## Model

| member | source | states |
|---|---|---|
| `Strings.ContainsIffOccurs` | api/common/event.go:198 | The recursive substring test succeeds exactly when the tracer occurs at some offset of the node data. |
| `Strings.Contains` | api/common/event.go:198 | No contract of its own. `Strings.ContainsIffOccurs` proves it holds exactly when the substring occurs at some offset. |
| `Strings.HasPrefix` | api/common/event.go:283-286 | No contract of its own: the string starts with the prefix. `Strings.PrefixIsContained` shows a prefix is in particular contained. |
| `Types.GoInt` | api/common/event.go:97 | `int(tracer.ID)` lies in the 64-bit signed range and is the id itself when the id is below 2^63. |
| `Types.GoUint` | api/common/event.go:36 | `uint(i)` is the identity on non-negative values below 2^64. It undoes `int(...)` on every 64-bit signed value, and maps -1 to 2^64−1. |
| `Types.UintRoundTrip` | api/common/event.go:379-381 | Converting a tracer id to `int` for the cache and back to `uint` for the store load gives back the same id. |
| `Classifier.NodeStage` | api/common/event.go:193-255 | The node's own test emits a finding only when its data contains the tracer. Text gives Text/0/LeafNode. An element outside "response" gives NodeName/3/TagName, even under a script parent. A document or doctype under a script parent gives NodeName/1/LeafNodeScriptTag. Under "response", named nodes get 0 and the zero reason; so does a document or doctype node whose parent is not a script element, under any event. Other nodes give Comment/LeafNodeCommentTag, rated 1, or 0 under "response". The local `sev` equals the emitted severity. |
| `Classifier.AttrStage` | api/common/event.go:257-302 | A name match gives Attr, 3/AttributeName or 1/AttributeNameHTTPResponse under "response", and excludes a value match. A value match defaults to 1/AttributeValueHTTPResponse. Outside "response" it becomes 2/AttributeValueStartHref for an `href` whose value starts with the tracer, else 2/AttributeValueOnEventHandler for an `on…` key. Enclosing name is the element, snippet the raw value. A non-matching attribute leaves the locals untouched. |
| `Classifier.VisitAttrs` | api/common/event.go:257-307 | The attribute loop as written, with the locals carried from one attribute to the next. No contract of its own; `Classifier.VisitAttrsAgrees` states what it appends and how it raises `highest`. |
| `Classifier.Visit` | api/common/event.go:187-312 | One call of the walk as written. No contract of its own; `Classifier.VisitIsPreorder` states exactly what it appends and the final `highest`. |
| `Classifier.VisitChildren` | api/common/event.go:309-311 | The sibling loop as written. No contract of its own; `Classifier.VisitChildrenIsPreorder` states exactly what it appends. |
| `Classifier.Raise` | api/common/event.go:252-254 | The running-maximum update returns one of its inputs and is at least both. |
| `Classifier.MaxSev` | api/common/event.go:304-306 | The highest severity bounds every finding and is attained by one (0 when there are none). |
| `Classifier.MaxSevConcat` | api/common/event.go:304-306 | The maximum over two consecutive runs of findings is the larger of the two maxima. |
| `Classifier.VisitAttrsAgrees` | api/common/event.go:257-307 | Given a stale `sev` no larger than `highest`, the attribute loop appends exactly the reference attribute findings in attribute order and raises `highest` by exactly their maximum. So the unreset locals are harmless. |
| `Classifier.VisitIsPreorder` | api/common/event.go:187-312 | The walk appends the subtree's findings in pre-order: the node's own, then one per matching attribute in order, then each child's subtree in order, with the node's name as the children's parent name. The final `highest` is the maximum of its initial value and all emitted severities. |
| `Classifier.VisitChildrenIsPreorder` | api/common/event.go:309-311 | Visiting the children first sibling to last appends their subtrees' findings in that order. |
| `Classifier.FindingsBounded` | api/common/event.go:198-306 | Every finding of a subtree is rated at most 3, and at most 1 under a "response" event. |
| `Classifier.Locate` | api/common/event.go:193-197 | Classifying a document from a root with an empty-named synthetic parent, no findings and `highest` 0 yields the pre-order reference findings and `highest` equal to their maximum. All severities are in 0..3, and at most 1 under "response". |
| `Classifier.TextLeafFinding` | api/common/event.go:199-208 | A text node holding the tracer yields exactly one finding, Text/0/LeafNode, enclosed by the parent's name, and leaves `highest` at 0. |
| `Classifier.CommentLeafFinding` | api/common/event.go:235-249 | A comment-like node holding the tracer yields exactly one Comment/LeafNodeCommentTag finding, rated 1, or 0 under "response". |
| `Classifier.InsideScript` | api/common/event.go:209-234 | Inside a script element, a child element whose tag holds the tracer is rated 3/TagName, never the script-leaf reason. A document or doctype child there is rated 1/LeafNodeScriptTag. |
| `Classifier.NamedNodeInResponse` | api/common/event.go:209-234 | Under "response", a matching document, element or doctype node is rated 0 and keeps the zero reason. |
| `Classifier.HrefValueFinding` | api/common/event.go:276-301 | An `href` whose value starts with the tracer yields one AttrVal finding, rated 2/AttributeValueStartHref, or 1/AttributeValueHTTPResponse under "response". |
| `Classifier.HandlerValueFinding` | api/common/event.go:281-290 | A tracer in the value of an `on…` attribute yields one AttrVal finding rated 2/AttributeValueOnEventHandler outside "response". |
| `Classifier.NameMatchExcludesValue` | api/common/event.go:258-276 | An attribute whose name holds the tracer yields exactly one finding, an Attr one carrying the value as snippet, even if the value also holds the tracer. |
| `Ingest.ZeroSeverities` | api/common/event.go:143-148 | Keeps every finding except for rating it 0. The result's highest severity is 0 and it raises no alert. |
| `Ingest.Rate` | api/common/event.go:142-148 | A "text" event has every finding rated 0 and a maximum of 0. Other events keep their findings. |
| `Ingest.RecordSeverity` | api/common/event.go:150-178 | The stored row has `hasTracerEvents` set and the watermark raised only when `highest` strictly exceeds it. A severity write is issued iff the watermark changed. A has-events write is issued iff it was false. A tracer notification is issued iff the row changed. Each is issued at most once and nothing else is issued. |
| `Ingest.DomContexts` | api/common/event.go:132-181 | With no findings, the event and tracer are unchanged and nothing is issued. Otherwise the event's contexts become the rated findings. The stored watermark becomes the maximum of the old watermark and their severities, and never decreases. A "text" event never raises it. Writes and the tracer notification are issued exactly when the respective field changed, each at most once, and nothing else is issued. |
| `Ingest.HasAlert` | api/common/event.go:105-110 | The scan succeeds iff some finding is rated 2 or more. |
| `Ingest.CountAlertsConcat` | api/common/event.go:105-110 | Alerts in two consecutive effect lists add up. |
| `Ingest.Announce` | api/common/event.go:96-110 | After a successful insert, the first two effects are the single cache append of the event under `int(tracer.ID)` and its subscriber notification, in that order. Everything after them is an alert for this tracer and event, and there is exactly one iff a finding is rated 2 or more. Nothing else is issued. |
| `Ingest.Store` | api/common/event.go:82-111 | The create request carries the event without its raw event. On failure it returns a store error after the earlier effects. On success the event with its new id goes to the cache under `int(tracer.ID)` and to subscribers, and an alert is issued iff a finding is rated 2 or more. |
| `Ingest.AddEvent` | api/common/event.go:68-112 | A parse failure aborts with no effects. A failed insert yields an error. A success returns the event with the store's id, appended to the cache under the tracer's key and announced. |
| `Ingest.AddEventClassifiesOnlyHtml` | api/common/event.go:74-80 | A non-HTML event is stored with the findings it came with and never touches the tracer row. An HTML event is stored with the post-pass findings. |
| `Ingest.StoreLeavesTracer` | api/common/event.go:82-111 | Storing and announcing an event never writes the tracer row and never notifies about the tracer. |
| `Ingest.AddEventAlertsOnce` | api/common/event.go:103-110 | Exactly one alert is issued iff the stored event has a finding rated 2 or more, and none on any failure. |
| `Ingest.PostPassStored` | api/common/event.go:137-172 | One post-pass sets the watermark to the maximum of the old value and the event's rated findings. It sets `hasTracerEvents` iff it was set or the event had findings. |
| `Ingest.ReplayWatermark` | api/common/event.go:155-165 | When each post-pass is handed the row the previous one stored, then after any sequence of events the tracer's overall severity is the maximum of its start value and every finding folded in. Id and payload are unchanged. |
| `Ingest.ReplayHasEvents` | api/common/event.go:150-172 | After any sequence of events, `hasTracerEvents` is true iff it started true or some event had a finding. |
| `Ingest.ReplayMonotone` | api/common/event.go:155-172 | When each post-pass is handed the row the previous one stored, then along a sequence of events the overall severity never decreases and `hasTracerEvents` never resets. |
| `EventCache.Handle` | api/common/event.go:27-52 | `Read(-1)` empties the map with no reply. `Read(i)` on an absent or empty list loads `uint(i)`, installs it and replies with it. `Read(i)` on a non-empty list replies with it and changes nothing. `Update` appends at the end or creates a singleton, leaving other keys unchanged. |
| `EventCache.Run` | api/common/event.go:28-52 | Handling a run of messages one at a time gives at most one reply per message and no more loads than replies. `EventCache.RepliesMatchReads` counts the replies exactly. |
| `EventCache.RepliesMatchReads` | api/common/event.go:28-52 | Over any message sequence there is one reply per non-flush read and at most one load per read. |
| `EventCache.HandleLeavesAlone` | api/common/event.go:46-51 | A message that neither reads key `k` nor flushes extends `k`'s list only by the event it appends to `k`. |
| `EventCache.UpdatesAccumulate` | api/common/event.go:46-51 | Updates to a key accumulate in arrival order after its earlier list, whatever other keys' reads and updates are interleaved. |
| `EventCache.UpdateBeforeFirstRead` | api/common/event.go:35-50 | From an empty cache, a read of a key after updates to it replies with exactly those events and does not load. |
| `EventCache.FlushThenRead` | api/common/event.go:33-42 | After a flush, the next read loads the key from the store once and replies with what the store holds. |
| `EventCache.RepeatedReadHits` | api/common/event.go:35-45 | Once a non-empty list is cached, a second read replies with the same list and loads nothing. |
| `EventCache.EmptyLoadRepeats` | api/common/event.go:35-42 | A key whose store load is empty is loaded again on every read. |
| `EventCache.GetEvents` | api/common/event.go:379-382 | Unless the id converts to the sentinel, the reply is the list cached under `int(tracerID)` when it is non-empty. Otherwise it is the store's list for that same tracer id, loaded once and installed in the cache. No other key changes. |
| `EventCache.ClearCache` | api/common/event.go:386-388 | Clearing empties the cache with no reply and no load. |
| `EventCache.LargestIdFlushes` | api/common/event.go:379-388 | The tracer id 2^64−1 converts to the flush sentinel, so reading its events flushes the cache and sends no reply. |

## Left out

- HTML parsing (`html.Parse`): the parser is the parameter `parse`. Its failure is `None`, which `AddEvent` reports as `ParseError`.
- Snippet formatting (`gohtml.Format`): the uninterpreted parameter `pretty`.
- `AddEventData`: JSON sniffing with `json.Valid`, `json.MarshalIndent` and the raw-event deduplication. These are foreign library and store behaviour.
- `json.Marshal` of the returned event and of `GetEvents`: serialisation is foreign library behaviour. The model returns the event value.
- The store writes of `AddEvent` and `getDOMContexts` are effects in the result: `Create` is `CreateEvent`, and the two `Updates` are `SetOverallSeverity` and `SetHasTracerEvents`. The id the store assigns, or an insert failure, is the parameter `createdId`. The `Preload` query inside `getTracerEventsDB` is behind the `load` parameter. The `FirstOrCreate` of `AddEventData` is not modelled (see below).
- What the store fills in while saving an event: `copy := event` is a shallow copy, so `copy` shares its findings with the event passed to `Create`. Whatever the insert writes into those findings, such as their own ids and their `TracerEventID`, also reaches the cache and the subscribers through `copy`. The model keeps the findings as they were before the insert; only the event id is taken from the store.
- The errors of the two tracer `Updates`, and `err` being overwritten between them, are database error plumbing. The model assumes both writes succeed.
- `getTracerEventsDB` is driven by database queries, so the cache takes the load as the parameter `load`. That function writes its raw-event lookup cache by list position but reads it by `RawEventID`. On a hit it assigns to the loop copy only, so the hit has no effect.
- The goroutine, the channels, `init`, and the single shared reply channel: the cache is modelled as one message at a time. Correlating replies between concurrent callers is out of scope.
- `log.Error.Fatal` on a load error ends the process, so the model has no error path for `load`.
- `UpdateSubscribers` calls are effects (`NotifyTracer`, `NotifyEvent`, `NotifyAlert`), with no delivery modelled.
- Logging (`log.Warning.Print` and the like) is dropped: it has no effect on the stored rows, the cache or the notifications.
- Numeric values of the location and reason codes: they are defined in a types package that is not part of this model. `Unclassified` stands for the zero reason code. Whether the zero code coincides with a named code there is not modelled.
- Byte-level string semantics: strings are character sequences. Substring and prefix tests are the same exact comparisons, but on characters instead of UTF-8 bytes.
- Recursion depth on adversarially deep trees: the tree is a finite datatype and the walk is total.
- Determinism of classification holds by construction (pure functions), so no member states it.
- `Ingest.DomContexts`: states which writes and notifications are issued and that each is issued at most once, not their order (severity write, then has-events write, then the notification).
- `Ingest.AddEvent`: its own contract covers failures, the cache append and the event notification. The classification and alert guarantees are the lemmas `Ingest.AddEventClassifiesOnlyHtml` and `Ingest.AddEventAlertsOnce`.
- Ingest.ReplayWatermark / Ingest.ReplayMonotone: both assume one caller at a time that hands each post-pass the tracer row the previous post-pass stored. In the code `AddEvent` takes the tracer by value from its caller, and the severity write is a blind `Updates` of the value computed against that copy, not a maximum with what the store holds. So two concurrent `AddEvent` calls for one tracer, or a copy left stale by an earlier failed `Updates`, can lower the stored severity. The model does not include the store's own row, so these lemmas do not cover that case.
