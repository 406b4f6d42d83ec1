/** The widget store as a value, and every operation of core/src/widgets.rs on it as a function
    from store to store. The class in StoreObject.dfy does the same in place. */
module WidgetStore {
  import opened Json
  import opened Attributes
  import OutputFold

  type Id = string
  type MsgId = nat
  /** Milliseconds. */
  type Time = nat

  const OUTPUT_FLUSH: Time := 500
  const INFLIGHT_TIMEOUT: Time := 2000
  const LINK_STEP_LIMIT: nat := 10000
  const OUTPUT_MODEL := "OutputModel"
  const MODEL_REF := "IPY_MODEL_"

  datatype Inflight = Inflight(id: MsgId, sent: Time)

  datatype Model = Model(
    name: string,
    moduleName: string,
    version: string,
    attrs: Attrs,
    live: bool,
    expected: map<string, MsgId>,
    inflight: Option<Inflight>,
    pending: Attrs,
    pendingCell: Option<string>,
    clearPending: bool,
    flushScheduled: bool,
    outInflight: Option<MsgId>,
    outSentAt: Option<Time>
  )

  datatype End = End(model: Id, attr: string)

  datatype Link = Link(source: End, target: End, twoWay: bool)

  datatype Body =
    | Update(attrs: Attrs)
    | Custom(content: Value)
    | Close

  datatype Outgoing = Outgoing(comm: Id, id: MsgId, body: Body, cell: Option<string>)

  datatype Effect =
    | Notify(model: Id)
    | Send(msg: Outgoing)
    | FlushOutputsAfter(model: Id, delay: Time)
    | CheckInflightAfter(model: Id, id: MsgId, delay: Time)

  /** What happened to the store, kept only to state properties: no operation reads it. */
  datatype Item =
    | Queued(model: Id, update: Attrs)
    | Updated(model: Id, sent: Attrs)
    | Flushed(model: Id, at: Time, paced: bool)

  datatype Store = Store(
    models: map<Id, Model>,
    capture: map<string, seq<Id>>,
    inflight: map<MsgId, Id>,
    ours: set<MsgId>,
    waiting: set<Id>,
    gen: nat,
    links: map<Id, Link>,
    linkIndex: map<Id, seq<Id>>,
    next: MsgId,        // the supply of new message ids
    fx: seq<Effect>,    // the effects of the current call
    log: seq<Item>
  )

  /** What a call reads from outside: the clock, and the order in which the hash tables list
      their members during it. */
  datatype Env = Env(now: Time, order: seq<Id>)

  /** An update as it arrives: its attributes, and its touched keys in the order they come. */
  datatype Change = Change(attrs: Attrs, keys: seq<string>)

  function Empty(): Store {
    Store(map[], map[], map[], {}, {}, 0, map[], map[], 0, [], [])
  }

  function Blank(name: string, moduleName: string, version: string, live: bool): Model {
    Model(name, moduleName, version, map[], live, map[], None, map[], None, false, false, None, None)
  }

  function Disconnected(m: Model): Model {
    Blank(m.name, m.moduleName, m.version, false).(attrs := m.attrs)
  }

  function Since(now: Time, t: Time): Time {
    if now < t then 0 else now - t
  }

  function Without(ids: seq<Id>, id: Id): (r: seq<Id>)
    ensures forall x :: x in r <==> x in ids && x != id
    ensures NoRepeats(ids) ==> NoRepeats(r)
  {
    if ids == [] then []
    else
      var rest := Without(ids[..|ids| - 1], id);
      var last := ids[|ids| - 1];
      if last == id then rest else
        assert NoRepeats(ids) ==> last !in ids[..|ids| - 1];
        rest + [last]
  }

  predicate IsLive(st: Store, id: Id) {
    id in st.models && st.models[id].live
  }

  function AttrOf(m: Model, key: string): Entry {
    if key in m.attrs then m.attrs[key] else Entry(None, {})
  }

  // ---- outputs without transient ----

  function WithoutTransient(out: Value): Value {
    if out.Obj? then Obj(out.fields - {"transient"}) else out
  }

  /** outputs_for_kernel */
  function OutputsForKernel(outputs: Option<Value>): Value {
    if outputs.Some? && outputs.value.Arr? then
      var items := outputs.value.items;
      Arr(seq(|items|, i requires 0 <= i < |items| => WithoutTransient(items[i])))
    else
      Arr([])
  }

  /** same_without_transient */
  predicate SameWithoutTransient(kernel: Value, ours: Value) {
    if kernel.Obj? && ours.Obj? then
      var k, o := kernel.fields.Keys - {"transient"}, ours.fields.Keys - {"transient"};
      |k| == |o| && forall key <- k :: key in ours.fields && ours.fields[key] == kernel.fields[key]
    else
      kernel == ours
  }

  /** outputs_match */
  predicate OutputsMatch(echoed: Value, outputs: Option<Value>) {
    echoed.Arr? &&
    var stored := if outputs.Some? && outputs.value.Arr? then outputs.value.items else [];
    |echoed.items| == |stored| &&
    forall i | 0 <= i < |stored| :: SameWithoutTransient(echoed.items[i], stored[i])
  }

  lemma SameWithoutTransientIsEquality(kernel: Value, ours: Value)
    ensures SameWithoutTransient(kernel, ours) <==> WithoutTransient(kernel) == WithoutTransient(ours)
  {
    if kernel.Obj? && ours.Obj? {
      var k, o := kernel.fields - {"transient"}, ours.fields - {"transient"};
      assert k.Keys == kernel.fields.Keys - {"transient"} && o.Keys == ours.fields.Keys - {"transient"};
      if SameWithoutTransient(kernel, ours) {
        SubsetSameSize(k.Keys, o.Keys);
        assert k == o;
      }
      if k == o {
        forall key | key in k.Keys ensures key in ours.fields && ours.fields[key] == kernel.fields[key] {
          assert k[key] == o[key];
        }
      }
    }
  }

  /** The comparison of an echoed list with the stored one is that the kernel would be sent the same. */
  lemma OutputsMatchIsEquality(echoed: Value, outputs: Option<Value>)
    ensures OutputsMatch(echoed, outputs) <==>
            echoed.Arr? && OutputsForKernel(Some(echoed)) == OutputsForKernel(outputs)
  {
    if echoed.Arr? {
      var stored := if outputs.Some? && outputs.value.Arr? then outputs.value.items else [];
      var a, b := OutputsForKernel(Some(echoed)).items, OutputsForKernel(outputs).items;
      forall i | 0 <= i < |stored| && i < |echoed.items|
        ensures SameWithoutTransient(echoed.items[i], stored[i]) <==> a[i] == b[i]
      {
        SameWithoutTransientIsEquality(echoed.items[i], stored[i]);
      }
      assert OutputsMatch(echoed, outputs) ==> a == b;
    }
  }

  /** Leaving transient out twice is leaving it out once. */
  lemma SentTwice(v: Option<Value>)
    ensures OutputsForKernel(Some(OutputsForKernel(v))) == OutputsForKernel(v)
  {
    var sent := OutputsForKernel(v);
    var again := OutputsForKernel(Some(sent));
    forall i | 0 <= i < |sent.items| ensures again.items[i] == sent.items[i] {
      if sent.items[i].Obj? {
        assert "transient" !in sent.items[i].fields;
        assert sent.items[i].fields - {"transient"} == sent.items[i].fields;
      }
    }
    assert again.items == sent.items;
  }

  // ---- sending ----

  function Emit(st: Store, effect: Effect): Store {
    st.(fx := st.fx + [effect])
  }

  /** outgoing */
  function Post(st: Store, comm: Id, body: Body, cell: Option<string>): Store {
    Emit(st.(ours := st.ours + {st.next}, next := st.next + 1), Send(Outgoing(comm, st.next, body, cell)))
  }

  function FlushBody(m: Model): Body {
    Update(map["outputs" := Entry(Some(OutputsForKernel(ValueOf(m.attrs, "outputs"))), {})])
  }

  /** send_outputs */
  function SendOutputs(st: Store, id: Id, now: Time, paced: bool): Store {
    if id !in st.models || id !in st.waiting || st.models[id].outInflight.Some? then st
    else
      var m := st.models[id];
      var m' := m.(expected := m.expected["outputs" := st.next], outInflight := Some(st.next), outSentAt := Some(now));
      Post(st.(models := st.models[id := m'], waiting := st.waiting - {id}, inflight := st.inflight[st.next := id],
               log := st.log + [Flushed(id, now, paced)]),
           id, FlushBody(m), None)
  }

  /** flush_before_request, over the members of `out_waiting` in the order given. */
  function FlushAll(st: Store, order: seq<Id>, now: Time): Store
    decreases |order|
  {
    if order == [] then st else FlushAll(SendOutputs(st, order[0], now, false), order[1..], now)
  }

  /** What send_update does after the captures that wait went out. */
  function PutUpdate(st: Store, id: Id, update: Attrs, cell: Option<string>, now: Time): Store
    requires id in st.models
  {
    var m := st.models[id];
    var m' := m.(expected := m.expected + (map k <- update :: st.next), inflight := Some(Inflight(st.next, now)));
    var inflight := if m.inflight.Some? then st.inflight - {m.inflight.value.id} else st.inflight;
    Emit(Post(st.(models := st.models[id := m'], inflight := inflight[st.next := id],
                  log := st.log + [Updated(id, update)]),
              id, Update(update), cell),
         CheckInflightAfter(id, st.next, INFLIGHT_TIMEOUT))
  }

  lemma {:induction false} FlushAllKeepsModels(st: Store, order: seq<Id>, now: Time)
    ensures FlushAll(st, order, now).models.Keys == st.models.Keys
    decreases |order|
  {
    if order != [] { FlushAllKeepsModels(SendOutputs(st, order[0], now, false), order[1..], now); }
  }

  /** send_update */
  function SendUpdate(st: Store, id: Id, update: Attrs, cell: Option<string>, e: Env): Store
    requires id in st.models
  {
    FlushAllKeepsModels(st, e.order, e.now);
    PutUpdate(FlushAll(st, e.order, e.now), id, update, cell, e.now)
  }

  predicate Holds(m: Model, now: Time) {
    m.inflight.Some? && Since(now, m.inflight.value.sent) < INFLIGHT_TIMEOUT
  }

  /** A change joins what is held. */
  function Hold(st: Store, id: Id, update: Attrs): Store
    requires id in st.models
  {
    var m := st.models[id];
    st.(models := st.models[id := m.(pending := Merge(m.pending, update))], log := st.log + [Queued(id, update)])
  }

  /** The model gives up its update in flight and what it holds, to be sent. */
  function TakeHeld(st: Store, id: Id): Store
    requires id in st.models
  {
    var m := st.models[id];
    st.(models := st.models[id := m.(inflight := None, pending := map[], pendingCell := None)],
        inflight := if m.inflight.Some? then st.inflight - {m.inflight.value.id} else st.inflight)
  }

  function NameCell(st: Store, id: Id, cell: Option<string>): Store
    requires id in st.models
  {
    if cell.None? then st else st.(models := st.models[id := st.models[id].(pendingCell := cell)])
  }

  /** queue_for_kernel */
  function Queue(st: Store, id: Id, update: Attrs, cell: Option<string>, e: Env): Store {
    if id !in st.models then st
    else
      var m := st.models[id];
      var held := Hold(st, id, update);
      if Holds(m, e.now) then NameCell(held, id, cell)
      else
        SendUpdate(TakeHeld(held, id), id, Merge(m.pending, update), if cell.Some? then cell else m.pendingCell, e)
  }

  /** release */
  function Release(st: Store, id: Id, msg: MsgId, e: Env): Store {
    var st1 := st.(inflight := st.inflight - {msg});
    if id !in st.models then st1
    else
      var m := st.models[id];
      if m.inflight.None? || m.inflight.value.id != msg then st1
      else if m.pending == map[] then st1.(models := st1.models[id := m.(inflight := None)])
      else SendUpdate(TakeHeld(st1, id), id, m.pending, m.pendingCell, e)
  }

  // ---- pacing ----

  function Arm(st: Store, id: Id, delay: Time): Store
    requires id in st.models
  {
    Emit(st.(models := st.models[id := st.models[id].(flushScheduled := true)]), FlushOutputsAfter(id, delay))
  }

  /** paced_flush */
  function PacedFlush(st: Store, id: Id, now: Time): Store {
    if id !in st.models || id !in st.waiting || st.models[id].outInflight.Some? then st
    else
      var m := st.models[id];
      if m.outSentAt.Some? && Since(now, m.outSentAt.value) < OUTPUT_FLUSH then
        if m.flushScheduled then st else Arm(st, id, OUTPUT_FLUSH - Since(now, m.outSentAt.value))
      else
        SendOutputs(st, id, now, true)
  }

  /** flush_outputs */
  function FlushOutputs(st: Store, id: Id, now: Time): Store {
    PacedFlush(if id in st.models then st.(models := st.models[id := st.models[id].(flushScheduled := false)]) else st,
               id, now)
  }

  /** on_idle */
  function OnIdle(st: Store, parent: MsgId, e: Env): Store {
    var st1 := st.(ours := st.ours - {parent});
    if parent !in st.inflight then st1
    else
      var id := st.inflight[parent];
      if id in st.models && st.models[id].outInflight == Some(parent) then
        PacedFlush(st1.(models := st.models[id := st.models[id].(outInflight := None)], inflight := st.inflight - {parent}),
                   id, e.now)
      else
        Release(st1, id, parent, e)
  }

  // ---- links ----

  function RefOf(s: string): Option<Id> {
    if MODEL_REF <= s then Some(s[|MODEL_REF|..]) else None
  }

  /** link_end_of: `["IPY_MODEL_<id>", attribute]` */
  function LinkEndOf(v: Option<Value>): Option<End> {
    if v.Some? && v.value.Arr? && |v.value.items| >= 2 && v.value.items[0].Str? && v.value.items[1].Str?
       && RefOf(v.value.items[0].s).Some?
    then Some(End(RefOf(v.value.items[0].s).value, v.value.items[1].s))
    else None
  }

  predicate IsLinkModel(m: Model) {
    m.name == "LinkModel" || m.name == "DirectionalLinkModel"
  }

  /** link_of */
  function LinkOf(m: Model): Option<Link> {
    var s, t := LinkEndOf(ValueOf(m.attrs, "source")), LinkEndOf(ValueOf(m.attrs, "target"));
    if IsLinkModel(m) && s.Some? && t.Some? then Some(Link(s.value, t.value, m.name == "LinkModel")) else None
  }

  function IndexAdd(index: map<Id, seq<Id>>, end: Id, link: Id): map<Id, seq<Id>> {
    var ids := if end in index then index[end] else [];
    index[end := if link in ids then ids else ids + [link]]
  }

  function IndexRemove(index: map<Id, seq<Id>>, end: Id, link: Id): map<Id, seq<Id>> {
    if end !in index then index
    else
      var ids := Without(index[end], link);
      if ids == [] then index - {end} else index[end := ids]
  }

  /** unindex_link */
  function UnindexLink(st: Store, id: Id): Store {
    if id !in st.links then st
    else
      var link := st.links[id];
      st.(links := st.links - {id},
          linkIndex := IndexRemove(IndexRemove(st.linkIndex, link.source.model, id), link.target.model, id))
  }

  /** index_link */
  function IndexLink(st: Store, id: Id, link: Link): Store {
    var st1 := UnindexLink(st, id);
    st1.(links := st1.links[id := link],
         linkIndex := IndexAdd(IndexAdd(st1.linkIndex, link.source.model, id), link.target.model, id))
  }

  datatype Copied = Copied(st: Store, changed: bool)

  /** A change made in the store: the model takes it, and it is queued for the kernel. */
  function LocalChange(st: Store, id: Id, update: Attrs, cell: Option<string>, e: Env): Store
    requires id in st.models
  {
    Queue(SetAttrs(st, id, update), id, update, cell, e)
  }

  function SetAttrs(st: Store, id: Id, update: Attrs): Store
    requires id in st.models
  {
    st.(models := st.models[id := st.models[id].(attrs := Merge(st.models[id].attrs, update))])
  }

  /** copy_attr */
  function CopyAttr(st: Store, from: End, to: End, e: Env): Copied {
    if !IsLive(st, to.model) || from.model !in st.models then Copied(st, false)
    else
      var entry := AttrOf(st.models[from.model], from.attr);
      if entry == Entry(None, {}) || AttrOf(st.models[to.model], to.attr) == entry then Copied(st, false)
      else Copied(LocalChange(Emit(st, Notify(to.model)), to.model, map[to.attr := entry], None, e), true)
  }

  datatype Copy = Copy(from: End, to: End)

  /** The copy a link makes when the attribute `at` changed, if it makes one. */
  function CopyFrom(link: Link, at: End): Option<Copy> {
    if link.source == at then Some(Copy(link.source, link.target))
    else if link.twoWay && link.target == at then Some(Copy(link.target, link.source))
    else None
  }

  datatype Walk = Walk(st: Store, queue: seq<End>, steps: nat, stopped: bool)

  /** One round of propagate: the links `ids` of a changed attribute. */
  function Visit(st: Store, at: End, ids: seq<Id>, queue: seq<End>, steps: nat, e: Env): (w: Walk)
    requires steps <= LINK_STEP_LIMIT
    ensures w.steps >= steps && (!w.stopped ==> w.steps <= LINK_STEP_LIMIT)
    ensures w.steps == steps ==> w.queue == queue
    decreases |ids|
  {
    if ids == [] then Walk(st, queue, steps, false)
    else
      var copy := if ids[0] in st.links then CopyFrom(st.links[ids[0]], at) else None;
      if copy.None? then Visit(st, at, ids[1..], queue, steps, e)
      else if steps + 1 > LINK_STEP_LIMIT then Walk(st, queue, steps + 1, true)
      else
        var c := CopyAttr(st, copy.value.from, copy.value.to, e);
        Visit(c.st, at, ids[1..], if c.changed then queue + [copy.value.to] else queue, steps + 1, e)
  }

  function LinksAt(st: Store, id: Id): seq<Id> {
    if id in st.linkIndex then st.linkIndex[id] else []
  }

  /** propagate: either a copy step is spent or the queue gets shorter. */
  function Propagate(st: Store, queue: seq<End>, steps: nat, e: Env): Walk
    requires steps <= LINK_STEP_LIMIT
    decreases LINK_STEP_LIMIT - steps, |queue|
  {
    if queue == [] then Walk(st, queue, steps, false)
    else
      var w := Visit(st, queue[0], LinksAt(st, queue[0].model), queue[1..], steps, e);
      if w.stopped then w else Propagate(w.st, w.queue, w.steps, e)
  }

  /** apply_link */
  function ApplyLink(st: Store, id: Id, e: Env): Store {
    if id !in st.links || !IsLive(st, st.links[id].source.model) || !IsLive(st, st.links[id].target.model) then st
    else
      var c := CopyAttr(st, st.links[id].source, st.links[id].target, e);
      if c.changed then Propagate(c.st, [st.links[id].target], 0, e).st else c.st
  }

  function ApplyLinks(st: Store, ids: seq<Id>, e: Env): Store
    decreases |ids|
  {
    if ids == [] then st else ApplyLinks(ApplyLink(st, ids[0], e), ids[1..], e)
  }

  /** relink */
  function Relink(st: Store, id: Id, e: Env): Store {
    if id !in st.models || LinkOf(st.models[id]).None? then UnindexLink(st, id)
    else ApplyLink(IndexLink(st, id, LinkOf(st.models[id]).value), id, e)
  }

  /** changed_keys */
  function ChangedKeys(st: Store, id: Id, c: Change): seq<string> {
    if (id in st.models && IsLinkModel(st.models[id])) || id in st.linkIndex then c.keys else []
  }

  function EndsOf(id: Id, keys: seq<string>): seq<End> {
    seq(|keys|, i requires 0 <= i < |keys| => End(id, keys[i]))
  }

  /** follow_change */
  function FollowChange(st: Store, id: Id, keys: seq<string>, e: Env): Store {
    if keys == [] then st
    else
      var st1 := if id in st.models && IsLinkModel(st.models[id]) && ("source" in keys || "target" in keys)
                 then Relink(st, id, e) else st;
      if id in st1.linkIndex then Propagate(st1, EndsOf(id, keys), 0, e).st else st1
  }

  // ---- captures ----

  /** add_capture */
  function AddCapture(st: Store, parent: string, id: Id): Store {
    var ids := if parent in st.capture then st.capture[parent] else [];
    st.(capture := st.capture[parent := Without(ids, id) + [id]])
  }

  function EndCapture(st: Store, parent: string, id: Id): Store {
    if parent !in st.capture then st
    else
      var ids := Without(st.capture[parent], id);
      st.(capture := if ids == [] then st.capture - {parent} else st.capture[parent := ids])
  }

  /** capture_changed */
  function CaptureChanged(st: Store, id: Id, oldMsg: string, newMsg: string, now: Time): Store {
    var st1 := if oldMsg != "" then PacedFlush(EndCapture(st, oldMsg, id), id, now) else st;
    if newMsg != "" then AddCapture(st1, newMsg, id) else st1
  }

  function SetOutputs(m: Model, outputs: seq<Value>): Model {
    m.(attrs := m.attrs["outputs" := AttrOf(m, "outputs").(value := Some(Arr(outputs)))])
  }

  function OutputsOf(m: Model): seq<Value> {
    var v := ValueOf(m.attrs, "outputs");
    if v.Some? && v.value.Arr? then v.value.items else []
  }

  /** The outputs of a model changed here: they wait to be sent, and a timer is armed unless one
      is set or a flush is in flight. */
  function Captures(st: Store, id: Id, outputs: seq<Value>, clearPending: bool): Store
    requires id in st.models
  {
    var m := SetOutputs(st.models[id], outputs).(clearPending := clearPending);
    var st1 := Emit(st.(models := st.models[id := m], waiting := st.waiting + {id}), Notify(id));
    if !m.flushScheduled && m.outInflight.None? then Arm(st1, id, OUTPUT_FLUSH) else st1
  }

  function CapturingModel(st: Store, parent: string): Option<Id> {
    if parent in st.capture && st.capture[parent] != [] then
      var id := st.capture[parent][|st.capture[parent]| - 1];
      if IsLive(st, id) && st.models[id].name == OUTPUT_MODEL then Some(id) else None
    else None
  }

  /** route_output */
  function RouteOutput(st: Store, parent: string, ev: OutputFold.Event): Store {
    var id := CapturingModel(st, parent);
    if id.None? then st
    else
      var m := st.models[id.value];
      var f := OutputFold.Captured(OutputFold.Folded(OutputsOf(m), m.clearPending), ev);
      Captures(st, id.value, f.outputs, f.clearPending)
  }

  predicate Shows(out: Value, display: string) {
    var t := Get(out, "transient");
    t.Some? && Get(t.value, "display_id") == Some(Str(display))
  }

  function Redisplayed(outputs: seq<Value>, display: string, data: Value, metadata: Value): seq<Value> {
    seq(|outputs|, i requires 0 <= i < |outputs| =>
      if Shows(outputs[i], display) then Obj(outputs[i].fields["data" := data]["metadata" := metadata]) else outputs[i])
  }

  /** update_display, over the models in the order given. */
  function UpdateDisplay(st: Store, order: seq<Id>, display: string, data: Value, metadata: Value): Store
    decreases |order|
  {
    if order == [] then st
    else UpdateDisplay(UpdateDisplayOf(st, order[0], display, data, metadata), order[1..], display, data, metadata)
  }

  function UpdateDisplayOf(st: Store, id: Id, display: string, data: Value, metadata: Value): Store {
    if !IsLive(st, id) || st.models[id].name != OUTPUT_MODEL
       || !(exists out <- OutputsOf(st.models[id]) :: Shows(out, display)) then st
    else
      Captures(st, id, Redisplayed(OutputsOf(st.models[id]), display, data, metadata), st.models[id].clearPending)
  }

  // ---- the kernel's messages ----

  function DropFromCaptures(capture: map<string, seq<Id>>, id: Id): map<string, seq<Id>> {
    map p | p in capture && Without(capture[p], id) != [] :: Without(capture[p], id)
  }

  /** drop_model */
  function DropModel(st: Store, id: Id): Store {
    if id !in st.models then st
    else
      UnindexLink(
        st.(models := st.models - {id}, waiting := st.waiting - {id}, capture := DropFromCaptures(st.capture, id),
            inflight := map m | m in st.inflight && st.inflight[m] != id :: st.inflight[m]),
        id)
  }

  function Opened(c: Change): Model {
    Blank(StrOf(ValueOf(c.attrs, "_model_name")), StrOf(ValueOf(c.attrs, "_model_module")),
          StrOf(ValueOf(c.attrs, "_model_module_version")), true).(attrs := Merge(map[], c.attrs))
  }

  /** comm_open before the links apply. */
  function Insert(st: Store, id: Id, m: Model): Store {
    var st1 := DropModel(st, id);
    var msg := StrOf(ValueOf(m.attrs, "msg_id"));
    var st2 := if m.name == OUTPUT_MODEL && msg != "" then AddCapture(st1, msg, id) else st1;
    Emit(st2.(models := st2.models[id := m]), Notify(id))
  }

  /** comm_open of a widget */
  function CommOpen(st: Store, id: Id, c: Change, e: Env): Store {
    var m := Opened(c);
    var st1 := Insert(st, id, m);
    if LinkOf(m).Some? then ApplyLink(IndexLink(st1, id, LinkOf(m).value), id, e)
    else ApplyLinks(st1, LinksAt(st1, id), e)
  }

  /** comm_open of any other target: closed back at once. */
  function RefuseOpen(st: Store, comm: Id): Store {
    Post(st, comm, Close, None)
  }

  function CommClose(st: Store, id: Id): Store {
    if id in st.models then Emit(DropModel(st, id), Notify(id)) else st
  }

  /** kernel_update, for a connected model */
  function KernelUpdate(st: Store, id: Id, c: Change, e: Env): Store {
    if !IsLive(st, id) then st
    else
      var changed := ChangedKeys(st, id, c);
      var isOutput := st.models[id].name == OUTPUT_MODEL;
      var oldMsg := StrOf(ValueOf(st.models[id].attrs, "msg_id"));
      var st1 := Emit(SetAttrs(st, id, c.attrs), Notify(id));
      var newMsg := StrOf(ValueOf(st1.models[id].attrs, "msg_id"));
      var st2 := if isOutput && oldMsg != newMsg then CaptureChanged(st1, id, oldMsg, newMsg, e.now) else st1;
      FollowChange(st2, id, changed, e)
  }

  predicate EchoTakes(st: Store, id: Id, key: string, attrs: Attrs, parent: Option<MsgId>)
    requires id in st.models
  {
    var m := st.models[id];
    if key !in m.expected then true
    else if parent != Some(m.expected[key]) then false
    else if m.name == OUTPUT_MODEL && key == "outputs" then
      key !in m.pending && id !in st.waiting &&
      var v := ValueOf(attrs, key); v.Some? && !OutputsMatch(v.value, ValueOf(m.attrs, key))
    else key !in m.pending
  }

  /** Whether an echo changes an attribute. */
  predicate EchoChanges(st: Store, id: Id, key: string, attrs: Attrs, parent: Option<MsgId>)
    requires id in st.models
  {
    key in attrs && EchoTakes(st, id, key, attrs, parent) && AttrOf(st.models[id], key) != attrs[key]
  }

  function ChangedBy(st: Store, id: Id, keys: seq<string>, attrs: Attrs, parent: Option<MsgId>): (r: seq<string>)
    requires id in st.models
    ensures forall k :: k in r <==> k in keys && EchoChanges(st, id, k, attrs, parent)
  {
    if keys == [] then []
    else
      var last := keys[|keys| - 1];
      ChangedBy(st, id, keys[..|keys| - 1], attrs, parent) + if EchoChanges(st, id, last, attrs, parent) then [last] else []
  }

  function EchoApplied(st: Store, id: Id, c: Change, parent: Option<MsgId>): seq<string>
    requires id in st.models
  {
    ChangedBy(st, id, c.keys, c.attrs, parent)
  }

  /** The expectations an echo answers are over, applied or not. */
  function Answered(expected: map<string, MsgId>, attrs: Attrs, parent: Option<MsgId>): map<string, MsgId> {
    map k | k in expected && !(k in attrs && parent == Some(expected[k])) :: expected[k]
  }

  /** The attributes an echo changes. */
  function EchoKept(st: Store, id: Id, c: Change, parent: Option<MsgId>): Attrs
    requires id in st.models
  {
    var applied := EchoApplied(st, id, c, parent);
    map k | k in c.attrs && k in applied :: c.attrs[k]
  }

  /** kernel_echo up to the links */
  function TakeEcho(st: Store, id: Id, c: Change, parent: Option<MsgId>): Store
    requires id in st.models
  {
    var m := st.models[id];
    var m1 := m.(expected := Answered(m.expected, c.attrs, parent));
    if EchoApplied(st, id, c, parent) == [] then st.(models := st.models[id := m1])
    else
      Emit(st.(models := st.models[id := m1.(attrs := Merge(m.attrs, EchoKept(st, id, c, parent)))]), Notify(id))
  }

  /** kernel_echo, for a connected model */
  function KernelEcho(st: Store, id: Id, c: Change, parent: Option<MsgId>, e: Env): Store {
    if !IsLive(st, id) then st
    else FollowChange(TakeEcho(st, id, c, parent), id, EchoApplied(st, id, c, parent), e)
  }

  /** A custom message from the kernel, for a connected model */
  function KernelCustom(st: Store, id: Id): Store {
    if IsLive(st, id) then Emit(st, Notify(id)) else st
  }

  // ---- the frontend ----

  /** frontend_update, for a connected model */
  function FrontendUpdate(st: Store, id: Id, c: Change, cell: Option<string>, e: Env): Store {
    if !IsLive(st, id) || c.attrs == map[] then st
    else FollowChange(LocalChange(st, id, c.attrs, cell, e), id, ChangedKeys(st, id, c), e)
  }

  /** frontend_custom, for a connected model */
  function FrontendCustom(st: Store, id: Id, content: Value, cell: Option<string>, e: Env): Store {
    if IsLive(st, id) then Post(FlushAll(st, e.order, e.now), id, Custom(content), cell) else st
  }

  /** reset, once the models to keep are known */
  function Reset(st: Store, keep: set<Id>): Store {
    Store(map id | id in st.models && id in keep :: Disconnected(st.models[id]),
          map[], map[], {}, {}, st.gen + 1, map[], map[], st.next, st.fx, st.log)
  }
}
