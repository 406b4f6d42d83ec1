/** The representation invariant of the store is kept by every public operation, whatever its
    arguments: an id that is open already, an id nobody knows, a change whose values sit in the
    slots of its buffers (core/src/widgets.rs, Store). */
module WidgetRep {
  import opened Json
  import opened Attributes
  import opened WidgetStore
  import opened WidgetInvariants
  import opened WidgetSteps
  import opened WidgetFlow
  import opened WidgetLinkSteps
  import opened WidgetEvents
  import opened WidgetLifecycle
  import OutputFold
  import WidgetSystem

  lemma EmptyRep()
    ensures Rep(Empty(), {})
  {
    WidgetSystem.StartsRep(Empty());
  }

  // ---- sending ----

  lemma EmitRep(st: Store, effect: Effect, slack: set<Id>)
    requires Rep(st, slack)
    ensures Rep(Emit(st, effect), slack)
  {
    assert forall x :: IsOutput(st, x) <==> IsOutput(Emit(st, effect), x);
    SideRep(st, Emit(st, effect), slack);
  }

  lemma SendRep(st: Store, slack: set<Id>, id: Id, now: Time, paced: bool)
    requires Rep(st, slack)
    ensures Rep(SendOutputs(st, id, now, paced), slack)
  {
    if CanGo(st, id) { SendOutputsRep(st, slack, id, now, paced); }
  }

  lemma {:induction false} FlushAllRep(st: Store, slack: set<Id>, order: seq<Id>, now: Time)
    requires Rep(st, slack)
    ensures Rep(FlushAll(st, order, now), slack)
    decreases |order|
  {
    if order != [] {
      SendRep(st, slack, order[0], now, false);
      FlushAllRep(SendOutputs(st, order[0], now, false), slack, order[1..], now);
    }
  }

  lemma SendKeepsLive(st: Store, id: Id, now: Time, x: Id)
    ensures IsLive(SendOutputs(st, id, now, false), x) == IsLive(st, x)
  {
  }

  lemma {:induction false} FlushAllKeepsLive(st: Store, order: seq<Id>, now: Time, x: Id)
    ensures IsLive(FlushAll(st, order, now), x) == IsLive(st, x)
    decreases |order|
  {
    if order != [] {
      SendKeepsLive(st, order[0], now, x);
      FlushAllKeepsLive(SendOutputs(st, order[0], now, false), order[1..], now, x);
    }
  }

  lemma SendUpdateRep(st: Store, slack: set<Id>, id: Id, update: Attrs, cell: Option<string>, e: Env)
    requires Rep(st, slack) && IsLive(st, id)
    ensures Rep(SendUpdate(st, id, update, cell, e), slack)
  {
    FlushAllRep(st, slack, e.order, e.now);
    FlushAllKeepsLive(st, e.order, e.now, id);
    PutUpdateRep(FlushAll(st, e.order, e.now), slack, id, update, cell, e.now);
  }

  lemma LocalChangeRep(st: Store, slack: set<Id>, id: Id, update: Attrs, cell: Option<string>, e: Env)
    requires Rep(st, slack) && IsLive(st, id) && update != map[]
    ensures Rep(LocalChange(st, id, update, cell, e), slack)
  {
    var m := st.models[id];
    LocalChangeIs(st, id, update, cell, e);
    if Holds(m, e.now) {
      JoinRep(st, slack, id, update, cell);
    } else {
      TakeRep(st, slack, id, update);
      SendUpdateRep(WidgetSteps.Take(st, id, update), slack, id, Merge(m.pending, update),
                    if cell.Some? then cell else m.pendingCell, e);
    }
  }

  // ---- release and pacing ----

  lemma ReleaseCurrentRep(st: Store, id: Id, msg: MsgId, ours: set<MsgId>, e: Env)
    requires Rep(st, {}) && st.ours - {msg} <= ours <= st.ours
    requires id in st.models && st.models[id].inflight.Some? && st.models[id].inflight.value.id == msg
    ensures Rep(Release(st.(ours := ours), id, msg, e), {})
  {
    assert ModelOk(st.models[id]);
    ReleaseIs(st, id, msg, ours, e);
    LetGoRep(st, {}, id, ours);
    if st.models[id].pending != map[] {
      SendUpdateRep(LetGo(st, id, ours), {}, id, st.models[id].pending, st.models[id].pendingCell, e);
    }
  }

  /** inflight_timeout: of a message that is no flush, whether it is still in flight or not. */
  lemma ReleaseRep(st: Store, id: Id, msg: MsgId, e: Env)
    requires Rep(st, {}) && ForUpdate(st, id, msg)
    ensures Rep(Release(st, id, msg, e), {})
  {
    if id in st.models && st.models[id].inflight.Some? && st.models[id].inflight.value.id == msg {
      assert st.(ours := st.ours) == st;
      ReleaseCurrentRep(st, id, msg, st.ours, e);
    } else {
      assert msg !in st.inflight;
      assert st.inflight - {msg} == st.inflight;
    }
  }

  lemma FewerSlack(st: Store, slack: set<Id>, id: Id)
    requires Rep(st, slack)
    requires id in st.waiting ==> id in st.models && (st.models[id].outInflight.Some? || st.models[id].flushScheduled)
    ensures Rep(st, slack - {id})
  {
  }

  lemma PacedSendRep(st: Store, slack: set<Id>, id: Id, now: Time)
    requires Rep(st, slack) && CanGo(st, id)
    ensures Rep(SendOutputs(st, id, now, true), slack - {id})
  {
    SendOutputsRep(st, slack, id, now, true);
    FewerSlack(SendOutputs(st, id, now, true), slack, id);
  }

  lemma WaitingLive(st: Store, slack: set<Id>, id: Id)
    requires WaitingOk(st, slack) && id in st.waiting
    ensures IsLive(st, id)
  {
    assert IsOutput(st, id);
  }

  lemma ArmWaitingRep(st: Store, slack: set<Id>, id: Id, delay: Time)
    requires Rep(st, slack) && CanGo(st, id)
    ensures Rep(Arm(st, id, delay), slack - {id})
  {
    WaitingLive(st, slack, id);
    ArmRep(st, slack, id, delay);
  }

  lemma PacedFlushRep(st: Store, slack: set<Id>, id: Id, now: Time)
    requires Rep(st, slack)
    ensures Rep(PacedFlush(st, id, now), slack - {id})
  {
    PacedFlushIs(st, id, now);
    if !CanGo(st, id) || (st.models[id].flushScheduled && !PacedNow(st.models[id], now)) {
      FewerSlack(st, slack, id);
    } else if PacedNow(st.models[id], now) {
      PacedSendRep(st, slack, id, now);
    } else {
      ArmWaitingRep(st, slack, id, OUTPUT_FLUSH - Since(now, st.models[id].outSentAt.value));
    }
  }

  lemma FlushOutputsRep(st: Store, id: Id, now: Time)
    requires Rep(st, {})
    ensures Rep(FlushOutputs(st, id, now), {})
  {
    if id in st.models {
      UnpacedRep(st, id, true, 0);
      PacedFlushRep(Unpaced(st, id, true, 0), {id}, id, now);
      assert {id} - {id} == {};
    }
  }

  lemma OnIdleRep(st: Store, parent: MsgId, e: Env)
    requires Rep(st, {})
    ensures Rep(OnIdle(st, parent, e), {})
  {
    if parent !in st.inflight {
      FewerOursRep(st, parent);
    } else {
      var id := st.inflight[parent];
      assert Awaits(st.models[id], parent);
      if st.models[id].outInflight == Some(parent) {
        UnpacedRep(st, id, false, parent);
        PacedFlushRep(Unpaced(st, id, false, parent), {id}, id, e.now);
        assert {id} - {id} == {};
      } else {
        ReleaseCurrentRep(st, id, parent, st.ours - {parent}, e);
      }
    }
  }

  // ---- links ----

  lemma UnindexRep(st: Store, id: Id)
    requires Rep(st, {})
    ensures Rep(UnindexLink(st, id), {})
  {
    UnindexOk(st, id);
    SameCaptures(st, UnindexLink(st, id));
    SideRep(st, UnindexLink(st, id), {});
  }

  lemma IndexRep(st: Store, id: Id, link: Link)
    requires Rep(st, {}) && id in st.models
    ensures Rep(IndexLink(st, id, link), {})
  {
    IndexLinkOk(st, id, link);
    assert IndexLink(st, id, link).capture == st.capture;
    SameCaptures(st, IndexLink(st, id, link));
    SideRep(st, IndexLink(st, id, link), {});
  }

  lemma CopyAttrRep(st: Store, from: End, to: End, e: Env)
    requires Rep(st, {})
    ensures Rep(CopyAttr(st, from, to, e).st, {})
  {
    if CopyAttr(st, from, to, e).changed {
      EmitRep(st, Notify(to.model), {});
      var update := map[to.attr := AttrOf(st.models[from.model], from.attr)];
      assert to.attr in update;
      LocalChangeRep(Emit(st, Notify(to.model)), {}, to.model, update, None, e);
    }
  }

  lemma VisitOneRep(st: Store, at: End, id: Id, queue: seq<End>, steps: nat, e: Env)
    requires Rep(st, {})
    ensures Rep(VisitOne(st, at, id, queue, steps, e).st, {})
  {
    VisitOneIs(st, at, id, queue, steps, e);
    var copy := CopyOf(st, at, id);
    if copy.Some? { CopyAttrRep(st, copy.value.from, copy.value.to, e); }
  }

  lemma {:induction false} VisitRep(st: Store, at: End, ids: seq<Id>, queue: seq<End>, steps: nat, e: Env)
    requires Rep(st, {}) && steps <= LINK_STEP_LIMIT
    ensures Rep(Visit(st, at, ids, queue, steps, e).st, {})
    decreases |ids|
  {
    if ids != [] {
      VisitIs(st, at, ids, queue, steps, e);
      VisitOneRep(st, at, ids[0], queue, steps, e);
      var v := VisitOne(st, at, ids[0], queue, steps, e);
      if !v.stopped { VisitRep(v.st, at, ids[1..], v.queue, v.steps, e); }
    }
  }

  lemma {:induction false} PropagateRep(st: Store, queue: seq<End>, steps: nat, e: Env)
    requires Rep(st, {}) && steps <= LINK_STEP_LIMIT
    ensures Rep(Propagate(st, queue, steps, e).st, {})
    decreases LINK_STEP_LIMIT - steps, |queue|
  {
    if queue != [] {
      VisitRep(st, queue[0], LinksAt(st, queue[0].model), queue[1..], steps, e);
      var v := Visit(st, queue[0], LinksAt(st, queue[0].model), queue[1..], steps, e);
      if !v.stopped { PropagateRep(v.st, v.queue, v.steps, e); }
    }
  }

  lemma ApplyLinkRep(st: Store, id: Id, e: Env)
    requires Rep(st, {})
    ensures Rep(ApplyLink(st, id, e), {})
  {
    if id in st.links {
      var link := st.links[id];
      CopyAttrRep(st, link.source, link.target, e);
      PropagateRep(CopyAttr(st, link.source, link.target, e).st, [link.target], 0, e);
    }
  }

  lemma {:induction false} ApplyLinksRep(st: Store, ids: seq<Id>, e: Env)
    requires Rep(st, {})
    ensures Rep(ApplyLinks(st, ids, e), {})
    decreases |ids|
  {
    if ids != [] {
      ApplyLinkRep(st, ids[0], e);
      ApplyLinksRep(ApplyLink(st, ids[0], e), ids[1..], e);
    }
  }

  lemma RelinkRep(st: Store, id: Id, e: Env)
    requires Rep(st, {})
    ensures Rep(Relink(st, id, e), {})
  {
    if id !in st.models || LinkOf(st.models[id]).None? {
      UnindexRep(st, id);
    } else {
      IndexRep(st, id, LinkOf(st.models[id]).value);
      ApplyLinkRep(IndexLink(st, id, LinkOf(st.models[id]).value), id, e);
    }
  }

  lemma FollowChangeRep(st: Store, id: Id, keys: seq<string>, e: Env)
    requires Rep(st, {})
    ensures Rep(FollowChange(st, id, keys, e), {})
  {
    if keys != [] {
      var relinks := id in st.models && IsLinkModel(st.models[id]) && ("source" in keys || "target" in keys);
      var st1 := if relinks then Relink(st, id, e) else st;
      if relinks { RelinkRep(st, id, e); }
      PropagateRep(st1, EndsOf(id, keys), 0, e);
    }
  }

  // ---- captures ----

  lemma CaptureListRep(st: Store, capture: map<string, seq<Id>>)
    requires Rep(st, {}) && CapturesOk(st.(capture := capture))
    ensures Rep(st.(capture := capture), {})
  {
    SideRep(st, st.(capture := capture), {});
  }

  lemma AddCaptureRep(st: Store, parent: string, id: Id)
    requires Rep(st, {}) && IsOutput(st, id)
    ensures Rep(AddCapture(st, parent, id), {})
  {
    var st2 := AddCapture(st, parent, id);
    assert NoRepeats<Id>([]);
    assert NoRepeats(st2.capture[parent]) by { assert id !in st2.capture[parent][..|st2.capture[parent]| - 1]; }
    ListedCaptures(st, st2.capture);
    CaptureListRep(st, st2.capture);
  }

  lemma EndCaptureRep(st: Store, parent: string, id: Id)
    requires Rep(st, {})
    ensures Rep(EndCapture(st, parent, id), {})
  {
    var capture := EndCapture(st, parent, id).capture;
    forall p | p in capture ensures capture[p] != [] && NoRepeats(capture[p]) && forall x <- capture[p] :: IsOutput(st, x) {
      EndCaptureLists(st, parent, id, p);
    }
    ListedCaptures(st, capture);
    CaptureListRep(st, capture);
    EndCaptureIs(st, parent, id);
  }

  lemma CaptureChangedRep(st: Store, id: Id, oldMsg: string, newMsg: string, now: Time)
    requires Rep(st, {}) && IsOutput(st, id)
    ensures Rep(CaptureChanged(st, id, oldMsg, newMsg, now), {})
  {
    var st1 := st;
    if oldMsg != "" {
      EndCaptureRep(st, oldMsg, id);
      PacedFlushRep(EndCapture(st, oldMsg, id), {}, id, now);
      EndCaptureIs(st, oldMsg, id);
      PacedFlushKeepsOutput(EndCapture(st, oldMsg, id), id, now, id);
      assert {} - {id} == {};
      st1 := PacedFlush(EndCapture(st, oldMsg, id), id, now);
    }
    if newMsg != "" { AddCaptureRep(st1, newMsg, id); }
  }

  lemma CapturesRep(st: Store, id: Id, outputs: seq<Value>, clearPending: bool)
    requires Rep(st, {}) && IsOutput(st, id)
    ensures Rep(Captures(st, id, outputs, clearPending), {})
  {
    var st1 := Dirtied(st, id, outputs, clearPending);
    DirtiedRep(st, id, outputs, clearPending);
    EmitRep(st1, Notify(id), {id});
    var st2 := Emit(st1, Notify(id));
    assert {id} - {id} == {};
    if !st.models[id].flushScheduled && st.models[id].outInflight.None? {
      ArmRep(st2, {id}, id, OUTPUT_FLUSH);
    } else {
      FewerSlack(st2, {id}, id);
    }
  }

  /** route_output */
  lemma RouteOutputRep(st: Store, parent: string, ev: OutputFold.Event)
    requires Rep(st, {})
    ensures Rep(RouteOutput(st, parent, ev), {})
  {
    var id := CapturingModel(st, parent);
    if id.Some? {
      var m := st.models[id.value];
      var f := OutputFold.Captured(OutputFold.Folded(OutputsOf(m), m.clearPending), ev);
      CapturesRep(st, id.value, f.outputs, f.clearPending);
    }
  }

  lemma UpdateDisplayOfRep(st: Store, id: Id, display: string, data: Value, metadata: Value)
    requires Rep(st, {})
    ensures Rep(UpdateDisplayOf(st, id, display, data, metadata), {})
  {
    if IsOutput(st, id) {
      CapturesRep(st, id, Redisplayed(OutputsOf(st.models[id]), display, data, metadata), st.models[id].clearPending);
    }
  }

  /** update_display */
  lemma {:induction false} UpdateDisplayRep(st: Store, order: seq<Id>, display: string, data: Value, metadata: Value)
    requires Rep(st, {})
    ensures Rep(UpdateDisplay(st, order, display, data, metadata), {})
    decreases |order|
  {
    if order != [] {
      UpdateDisplayOfRep(st, order[0], display, data, metadata);
      UpdateDisplayRep(UpdateDisplayOf(st, order[0], display, data, metadata), order[1..], display, data, metadata);
    }
  }

  // ---- the kernel's messages ----

  lemma DroppedRep(st: Store, id: Id)
    requires Rep(st, {})
    ensures Rep(DropModel(st, id), {}) && id !in DropModel(st, id).models
  {
    if id in st.models {
      DropRep(st, id);
      DropFields(st, id);
    }
  }

  lemma PlacedRep(st: Store, id: Id, m: Model, msg: string)
    requires Rep(st, {}) && id in st.models && st.models[id] == m && m.live
    ensures Rep(Emit(if m.name == OUTPUT_MODEL && msg != "" then AddCapture(st, msg, id) else st, Notify(id)), {})
  {
    if m.name == OUTPUT_MODEL && msg != "" {
      AddCaptureRep(st, msg, id);
      EmitRep(AddCapture(st, msg, id), Notify(id), {});
    } else {
      EmitRep(st, Notify(id), {});
    }
  }

  lemma InsertRep(st: Store, id: Id, c: Change)
    requires Rep(st, {})
    ensures Rep(Insert(st, id, Opened(c)), {}) && id in Insert(st, id, Opened(c)).models
  {
    var m := Opened(c);
    InsertIs(st, id, m);
    OpenedOk(c);
    DroppedRep(st, id);
    PutRep(DropModel(st, id), id, m);
    PlacedRep(Put(DropModel(st, id), id, m), id, m, StrOf(ValueOf(m.attrs, "msg_id")));
  }

  /** comm_open, of a new id or of one that is open with its traffic, captures and links, by any
      state and any buffers. */
  lemma CommOpenRep(st: Store, id: Id, c: Change, e: Env)
    requires Rep(st, {})
    ensures Rep(CommOpen(st, id, c, e), {})
  {
    var m := Opened(c);
    InsertRep(st, id, c);
    var st1 := Insert(st, id, m);
    if LinkOf(m).Some? {
      IndexRep(st1, id, LinkOf(m).value);
      ApplyLinkRep(IndexLink(st1, id, LinkOf(m).value), id, e);
    } else {
      ApplyLinksRep(st1, LinksAt(st1, id), e);
    }
  }

  /** comm_open of any other target */
  lemma RefuseOpenRep(st: Store, comm: Id)
    requires Rep(st, {})
    ensures Rep(RefuseOpen(st, comm), {})
  {
    PostRep(st, comm, Close, None);
  }

  /** comm_close */
  lemma CommCloseRep(st: Store, id: Id)
    requires Rep(st, {})
    ensures Rep(CommClose(st, id), {})
  {
    if id in st.models {
      DroppedRep(st, id);
      EmitRep(DropModel(st, id), Notify(id), {});
    }
  }

  /** comm_msg with an update of the kernel: any keys, any values, any buffers. */
  lemma KernelUpdateRep(st: Store, id: Id, c: Change, e: Env)
    requires Rep(st, {})
    ensures Rep(KernelUpdate(st, id, c, e), {})
  {
    if IsLive(st, id) {
      var m := st.models[id];
      var st0 := SetAttrs(st, id, c.attrs);
      assert st0 == Reset1(st, id, Merge(m.attrs, c.attrs), m.expected);
      Reset1Rep(st, id, c.attrs, m.expected);
      EmitRep(st0, Notify(id), {});
      var st1 := Emit(st0, Notify(id));
      var oldMsg, newMsg := StrOf(ValueOf(m.attrs, "msg_id")), StrOf(ValueOf(st1.models[id].attrs, "msg_id"));
      var moved := m.name == OUTPUT_MODEL && oldMsg != newMsg;
      if moved { CaptureChangedRep(st1, id, oldMsg, newMsg, e.now); }
      FollowChangeRep(if moved then CaptureChanged(st1, id, oldMsg, newMsg, e.now) else st1, id, ChangedKeys(st, id, c), e);
    }
  }

  lemma TakeEchoRep(st: Store, id: Id, c: Change, parent: Option<MsgId>)
    requires Rep(st, {}) && IsLive(st, id)
    ensures Rep(TakeEcho(st, id, c, parent), {})
  {
    TakeEchoIs(st, id, c, parent);
    Reset1Rep(st, id, EchoKept(st, id, c, parent), Answered(st.models[id].expected, c.attrs, parent));
    EmitRep(Echoed(st, id, c, parent), Notify(id), {});
  }

  /** comm_msg with an echo, of whatever message. */
  lemma KernelEchoRep(st: Store, id: Id, c: Change, parent: Option<MsgId>, e: Env)
    requires Rep(st, {})
    ensures Rep(KernelEcho(st, id, c, parent, e), {})
  {
    if IsLive(st, id) {
      TakeEchoRep(st, id, c, parent);
      FollowChangeRep(TakeEcho(st, id, c, parent), id, EchoApplied(st, id, c, parent), e);
    }
  }

  /** comm_msg with a custom message */
  lemma KernelCustomRep(st: Store, id: Id)
    requires Rep(st, {})
    ensures Rep(KernelCustom(st, id), {})
  {
    EmitRep(st, Notify(id), {});
  }

  // ---- the frontend ----

  lemma FrontendUpdateRep(st: Store, id: Id, c: Change, cell: Option<string>, e: Env)
    requires Rep(st, {})
    ensures Rep(FrontendUpdate(st, id, c, cell, e), {})
  {
    if IsLive(st, id) && c.attrs != map[] {
      LocalChangeRep(st, {}, id, c.attrs, cell, e);
      FollowChangeRep(LocalChange(st, id, c.attrs, cell, e), id, ChangedKeys(st, id, c), e);
    }
  }

  lemma FrontendCustomRep(st: Store, id: Id, content: Value, cell: Option<string>, e: Env)
    requires Rep(st, {})
    ensures Rep(FrontendCustom(st, id, content, cell, e), {})
  {
    if IsLive(st, id) {
      FlushAllRep(st, {}, e.order, e.now);
      PostRep(FlushAll(st, e.order, e.now), id, Custom(content), cell);
    }
  }

  // ---- reset and load_saved ----

  lemma ResetsRep(st: Store, keep: set<Id>)
    requires Rep(st, {})
    ensures Rep(Reset(st, keep), {})
  {
    ResetRep(st, keep);
  }

  /** The store takes these models, dead, over any it has under their ids. */
  function Load(st: Store, loaded: map<Id, Model>): Store {
    st.(models := st.models + loaded)
  }

  /** Nothing else in the store counts on the model: no message of ours waits for it, and it
      captures nothing. */
  predicate Unused(st: Store, id: Id) {
    && id !in st.inflight.Values && id !in st.waiting
    && forall p <- st.capture :: id !in st.capture[p]
  }

  lemma DeadQuiet(m: Model)
    requires ModelOk(m) && !m.live
    ensures OneEach(m) && forall msg: MsgId :: !Awaits(m, msg)
  {
  }

  lemma LoadAwaited(st: Store, loaded: map<Id, Model>, id: Id, msg: MsgId)
    requires Traffic(st) && forall id <- loaded :: ModelOk(loaded[id]) && !loaded[id].live
    requires id in Load(st, loaded).models && Awaits(Load(st, loaded).models[id], msg)
    ensures msg in st.inflight && st.inflight[msg] == id
  {
    if id in loaded {
      DeadQuiet(loaded[id]);
    } else {
      assert Load(st, loaded).models[id] == st.models[id];
    }
  }

  lemma LoadWaits(st: Store, loaded: map<Id, Model>, msg: MsgId)
    requires Traffic(st) && msg in st.inflight && st.inflight[msg] !in loaded
    ensures var st2 := Load(st, loaded); st.inflight[msg] in st2.models && Awaits(st2.models[st.inflight[msg]], msg)
  {
  }

  lemma LoadEach(st: Store, loaded: map<Id, Model>)
    requires Traffic(st) && (forall id <- loaded :: ModelOk(loaded[id]) && !loaded[id].live)
    ensures forall id <- Load(st, loaded).models :: OneEach(Load(st, loaded).models[id])
  {
    forall id | id in Load(st, loaded).models ensures OneEach(Load(st, loaded).models[id]) {
      if id in loaded { DeadQuiet(loaded[id]); } else { assert OneEach(st.models[id]); }
    }
  }

  lemma LoadAll(st: Store, loaded: map<Id, Model>)
    requires Traffic(st) && (forall id <- loaded :: ModelOk(loaded[id]) && !loaded[id].live)
    requires forall id <- loaded :: id !in st.inflight.Values
    ensures var st2 := Load(st, loaded);
            && (forall id, msg | id in st2.models && Awaits(st2.models[id], msg) :: msg in st2.inflight && st2.inflight[msg] == id)
            && (forall msg <- st2.inflight :: st2.inflight[msg] in st2.models && Awaits(st2.models[st2.inflight[msg]], msg))
  {
    var st2 := Load(st, loaded);
    forall id, msg | id in st2.models && Awaits(st2.models[id], msg) ensures msg in st2.inflight && st2.inflight[msg] == id {
      LoadAwaited(st, loaded, id, msg);
    }
    forall msg | msg in st2.inflight ensures st2.inflight[msg] in st2.models && Awaits(st2.models[st2.inflight[msg]], msg) {
      assert st.inflight[msg] in st.inflight.Values;
      LoadWaits(st, loaded, msg);
    }
  }

  lemma LoadTraffic(st: Store, loaded: map<Id, Model>)
    requires Traffic(st) && (forall id <- loaded :: ModelOk(loaded[id]) && !loaded[id].live)
    requires forall id <- loaded :: id !in st.inflight.Values
    ensures Traffic(Load(st, loaded))
  {
    LoadAll(st, loaded);
    LoadEach(st, loaded);
  }

  lemma LoadOthers(st: Store, loaded: map<Id, Model>)
    requires Rep(st, {}) && (forall id <- loaded :: ModelOk(loaded[id]) && !loaded[id].live)
    requires forall id <- loaded :: Unused(st, id)
    ensures ModelsOk(Load(st, loaded)) && CapturesOk(Load(st, loaded)) && WaitingOk(Load(st, loaded), {})
    ensures LinksOk(Load(st, loaded))
  {
    var st2 := Load(st, loaded);
    assert forall x | x !in loaded :: IsOutput(st, x) <==> IsOutput(st2, x);
    forall id | id in st2.models ensures ModelOk(st2.models[id]) {
      if id in loaded { assert ModelOk(loaded[id]); } else { assert ModelOk(st.models[id]); }
    }
  }

  lemma LoadUnused(st: Store, loaded: map<Id, Model>, id: Id)
    requires Rep(Load(st, loaded), {}) && id in loaded && ModelOk(loaded[id]) && !loaded[id].live
    ensures Unused(st, id)
  {
    var st2 := Load(st, loaded);
    DeadQuiet(loaded[id]);
    assert st2.models[id] == loaded[id] && !IsOutput(st2, id);
    forall msg | msg in st.inflight ensures st.inflight[msg] != id {
      assert Awaits(st2.models[st2.inflight[msg]], msg);
    }
  }

  /** load_saved keeps the invariant exactly when it puts no dead model in the place of one that
      is waited for or captures. In a store that was never connected, or was reset, none is. */
  lemma LoadKeepsRep(st: Store, loaded: map<Id, Model>)
    requires Rep(st, {}) && forall id <- loaded :: ModelOk(loaded[id]) && !loaded[id].live
    ensures Rep(Load(st, loaded), {}) <==> forall id <- loaded :: Unused(st, id)
  {
    if forall id <- loaded :: Unused(st, id) {
      LoadTraffic(st, loaded);
      LoadOthers(st, loaded);
    }
    if Rep(Load(st, loaded), {}) {
      forall id | id in loaded ensures Unused(st, id) { LoadUnused(st, loaded, id); }
    }
  }

  // ---- any sequence of calls ----

  /** A call of a public operation. Nothing is asked of what the kernel or the frontend says. */
  datatype Call =
    | Receives(ev: Event)
    | FrontendSets(id: Id, change: Change, cell: Option<string>)
    | FrontendSays(id: Id, content: Value, cell: Option<string>)
    | BeforeRequest
    | FlushTimeout(id: Id)
    | InflightTimeout(id: Id, msg: MsgId)
    | Resets(keep: set<Id>)
    | Loads(loaded: map<Id, Model>)

  function Called(st: Store, call: Call, e: Env): Store {
    match call
    case Receives(ev) => WidgetSystem.Receive(st, ev, e)
    case FrontendSets(id, c, cell) => FrontendUpdate(st, id, c, cell, e)
    case FrontendSays(id, content, cell) => FrontendCustom(st, id, content, cell, e)
    case BeforeRequest => FlushAll(st, e.order, e.now)
    case FlushTimeout(id) => FlushOutputs(st, id, e.now)
    case InflightTimeout(id, msg) => Release(st, id, msg, e)
    case Resets(keep) => Reset(st, keep)
    case Loads(loaded) => Load(st, loaded)
  }

  /** An update's timer names the model its message went to, as the store armed it; what is loaded
      is read from a block and replaces nothing that is in use. */
  predicate Allowed(st: Store, call: Call) {
    match call
    case InflightTimeout(id, msg) => ForUpdate(st, id, msg)
    case Loads(loaded) => forall id <- loaded :: ModelOk(loaded[id]) && !loaded[id].live && Unused(st, id)
    case _ => true
  }

  lemma ReceiveRep(st: Store, ev: Event, e: Env)
    requires Rep(st, {})
    ensures Rep(WidgetSystem.Receive(st, ev, e), {})
  {
    match ev
    case Open(id, c) => CommOpenRep(st, id, c, e);
    case OpenOther(id) => RefuseOpenRep(st, id);
    case Changed(id, c) => KernelUpdateRep(st, id, c, e);
    case Echo(id, c, parent) => KernelEchoRep(st, id, c, parent, e);
    case CustomEvent(id) => KernelCustomRep(st, id);
    case Closed(id) => CommCloseRep(st, id);
    case Idle(msg) => OnIdleRep(st, msg, e);
    case Output(request, output) => RouteOutputRep(st, request, output);
    case Display(display, data, metadata) => UpdateDisplayRep(st, e.order, display, data, metadata);
  }

  /** Every public operation keeps the representation invariant. */
  lemma CallKeepsRep(st: Store, call: Call, e: Env)
    requires Rep(st, {}) && Allowed(st, call)
    ensures Rep(Called(st, call, e), {})
  {
    match call
    case Receives(ev) => ReceiveRep(st, ev, e);
    case FrontendSets(id, c, cell) => FrontendUpdateRep(st, id, c, cell, e);
    case FrontendSays(id, content, cell) => FrontendCustomRep(st, id, content, cell, e);
    case BeforeRequest => FlushAllRep(st, {}, e.order, e.now);
    case FlushTimeout(id) => FlushOutputsRep(st, id, e.now);
    case InflightTimeout(id, msg) => ReleaseRep(st, id, msg, e);
    case Resets(keep) => ResetsRep(st, keep);
    case Loads(loaded) => LoadKeepsRep(st, loaded);
  }

  /** The states a new store goes through as calls come. */
  ghost predicate CallsMake(states: seq<Store>, calls: seq<Call>, envs: seq<Env>) {
    && |states| == |calls| + 1 && |envs| == |calls| && states[0] == Empty()
    && forall i | 0 <= i < |calls| ::
         Allowed(states[i], calls[i]) && states[i + 1] == Called(states[i].(fx := []), calls[i], envs[i])
  }

  /** The representation invariant after any sequence of calls. */
  lemma {:induction false} RepAfterAnyCalls(states: seq<Store>, calls: seq<Call>, envs: seq<Env>, n: nat)
    requires CallsMake(states, calls, envs) && n < |states|
    ensures Rep(states[n], {})
  {
    if n == 0 {
      EmptyRep();
    } else {
      var st := states[n - 1];
      RepAfterAnyCalls(states, calls, envs, n - 1);
      assert forall x :: IsOutput(st, x) <==> IsOutput(st.(fx := []), x);
      SideRep(st, st.(fx := []), {});
      CallKeepsRep(st.(fx := []), calls[n - 1], envs[n - 1]);
    }
  }
}
