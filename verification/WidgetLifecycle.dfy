/** Models that come and go, captured outputs, and messages that carry no attribute keep what
    WidgetInvariants states. */
module WidgetLifecycle {
  import opened Json
  import opened Attributes
  import opened WidgetStore
  import opened WidgetInvariants
  import opened WidgetSteps
  import opened WidgetFlow
  import opened WidgetLinkSteps
  import opened WidgetEvents
  import OutputFold

  // ---- drop_model ----

  /** drop_model up to the links */
  function Removed(st: Store, id: Id): Store {
    st.(models := st.models - {id}, waiting := st.waiting - {id}, capture := DropFromCaptures(st.capture, id),
        inflight := map m | m in st.inflight && st.inflight[m] != id :: st.inflight[m])
  }

  lemma RemovedTraffic(st: Store, id: Id)
    requires Traffic(st)
    ensures Traffic(Removed(st, id))
  {
    var st2 := Removed(st, id);
    forall x, msg | x in st2.models && Awaits(st2.models[x], msg)
      ensures msg in st2.inflight && st2.inflight[msg] == x
    {
      assert Awaits(st.models[x], msg);
    }
    forall x | x in st2.models ensures OneEach(st2.models[x]) { assert OneEach(st.models[x]); }
  }

  lemma RemovedOthers(st: Store, id: Id)
    requires ModelsOk(st) && CapturesOk(st) && WaitingOk(st, {})
    ensures ModelsOk(Removed(st, id)) && CapturesOk(Removed(st, id)) && WaitingOk(Removed(st, id), {})
  {
    var st2 := Removed(st, id);
    forall x | x in st2.models ensures ModelOk(st2.models[x]) { assert ModelOk(st.models[x]); }
    assert forall x | x != id :: IsOutput(st, x) <==> IsOutput(st2, x);
  }

  /** What the link tables do not touch. */
  lemma CoreKeeps(st: Store, st2: Store)
    requires SameCore(st, st2) && st2.capture == st.capture
    requires Traffic(st) && ModelsOk(st) && CapturesOk(st) && WaitingOk(st, {})
    ensures Traffic(st2) && ModelsOk(st2) && CapturesOk(st2) && WaitingOk(st2, {})
  {
    assert forall x :: IsOutput(st, x) <==> IsOutput(st2, x);
  }

  lemma DropRep(st: Store, id: Id)
    requires Rep(st, {}) && id in st.models
    ensures Rep(DropModel(st, id), {})
  {
    RemovedTraffic(st, id);
    RemovedOthers(st, id);
    UnindexOk(Removed(st, id), id);
    CoreKeeps(Removed(st, id), UnindexLink(Removed(st, id), id));
  }

  lemma DropFields(st: Store, id: Id)
    requires IndexOk(st.links, st.linkIndex) && id in st.models
    ensures var st2 := DropModel(st, id);
            && st2.models == st.models - {id} && st2.waiting == st.waiting - {id}
            && st2.fx == st.fx && st2.log == st.log && st2.next == st.next && st2.ours == st.ours
            && st2.inflight == map m | m in st.inflight && st.inflight[m] != id :: st.inflight[m]
  {
    UnindexOk(Removed(st, id), id);
  }

  lemma DropRest(w: World, st: Store, id: Id)
    requires Ids(w, st) && TimersOk(w, st) && LogOk(w.now, st, Nothing)
    requires id in st.models && IndexOk(st.links, st.linkIndex)
    ensures var st2 := DropModel(st, id); Ids(w, st2) && TimersOk(w, st2) && LogOk(w.now, st2, Nothing)
  {
    var st2 := DropModel(st, id);
    DropFields(st, id);
    forall x ensures SumOk(st2, Nothing, x) { assert SumOk(st, Nothing, x); }
    forall x | x in w.kernel ensures KernelOk(w, st2, x) { assert KernelOk(w, st, x); }
    forall x | IsLive(st2, x) ensures SentBy(st2.log, x, st2.models[x].outSentAt) && x in w.known {
      assert IsLive(st, x) && SentBy(st.log, x, st.models[x].outSentAt);
    }
    DropTimers(w, st, st2, id);
  }

  lemma DropTimers(w: World, st: Store, st2: Store, id: Id)
    requires TimersOk(w, st) && st2.models == st.models - {id} && st2.fx == st.fx && st2.next == st.next
    requires st2.inflight == map m | m in st.inflight && st.inflight[m] != id :: st.inflight[m]
    ensures TimersOk(w, st2)
  {
    forall x: Id, msg: MsgId | CheckTimer(x, msg) in Armed(w, st2) ensures msg < st2.next && ForUpdate(st2, x, msg) {
      assert ForUpdate(st, x, msg);
    }
    forall x | x in st2.models && st2.models[x].flushScheduled ensures FlushTimer(x) in Armed(w, st2) {
      assert st.models[x].flushScheduled;
    }
  }

  /** comm_close as the kernel sent it. */
  lemma ClosedMirror(w: World, st: Store, id: Id)
    requires Mirror(w, st, Nothing) && Ids(w, st) && IndexOk(st.links, st.linkIndex) && id in st.models
    requires w.fromKernel != [] && w.fromKernel[0] == Closed(id)
    ensures Mirror(Rest(w), DropModel(st, id), Nothing)
  {
    var st2 := DropModel(st, id);
    DropFields(st, id);
    assert w.fromKernel[0] in w.fromKernel && IsCloseOf(w.fromKernel[0], id);
    assert id !in w.kernel;
    forall x, key ensures Follows(w, st, st2, x, key) {}
    ConsumeMirror(w, st, st2);
  }

  lemma CommCloseGood(w: World, st: Store, id: Id)
    requires Good(w, st, Nothing, {}) && w.fromKernel != [] && w.fromKernel[0] == Closed(id)
    ensures Good(Rest(w), CommClose(st, id), Nothing, {})
  {
    if id !in st.models {
      SkipGood(w, st);
    } else {
      DropRep(st, id);
      DropRest(w, st, id);
      IdsRest(w, DropModel(st, id));
      assert Armed(Rest(w), DropModel(st, id)) == Armed(w, DropModel(st, id));
      ClosedMirror(w, st, id);
      NotifyGood(Rest(w), DropModel(st, id), id);
    }
  }

  // ---- comm_open ----

  lemma DropDeadMirror(w: World, st: Store, id: Id)
    requires Mirror(w, st, Nothing) && ModelsOk(st) && WaitingOk(st, {}) && IndexOk(st.links, st.linkIndex)
    requires id in st.models && !IsLive(st, id)
    ensures Mirror(w, DropModel(st, id), Nothing)
  {
    var st2 := DropModel(st, id);
    DropFields(st, id);
    forall x, key ensures InStep(w, st2, Nothing, x, key) {
      assert InStep(w, st, Nothing, x, key);
      assert ViewOf(st2, x, key) == ViewOf(st, x, key);
      if x == id { assert ModelOk(st.models[id]); }
    }
  }

  /** A model that is not connected goes. */
  lemma DropDeadGood(w: World, st: Store, id: Id)
    requires Good(w, st, Nothing, {}) && !IsLive(st, id)
    ensures Good(w, DropModel(st, id), Nothing, {}) && id !in DropModel(st, id).models
  {
    if id in st.models {
      DropRep(st, id);
      DropRest(w, st, id);
      DropDeadMirror(w, st, id);
      DropFields(st, id);
    }
  }

  lemma SumsUnlogged(log: seq<Item>, id: Id)
    requires Unlogged(log, id)
    ensures QueuedSum(log, id) == map[] && SentSum(log, id) == map[]
  {
    if log != [] {
      assert log[|log| - 1] in log;
      SumsUnlogged(log[..|log| - 1], id);
    }
  }

  function Put(st: Store, id: Id, m: Model): Store {
    st.(models := st.models[id := m])
  }

  lemma OpenedOk(c: Change)
    ensures ModelOk(Opened(c)) && OneEach(Opened(c)) && forall msg: MsgId :: !Awaits(Opened(c), msg)
  {
    var m := Opened(c);
    forall k | k in m.attrs ensures SlotOk(m, k) {
      NormIdempotent(c.attrs[k]);
    }
  }

  lemma PutTraffic(st: Store, id: Id, m: Model)
    requires Traffic(st) && id !in st.models && OneEach(m) && forall msg: MsgId :: !Awaits(m, msg)
    ensures Traffic(Put(st, id, m))
  {
    var st2 := Put(st, id, m);
    forall x, msg | x in st2.models && Awaits(st2.models[x], msg)
      ensures msg in st2.inflight && st2.inflight[msg] == x
    {
      assert x != id && Awaits(st.models[x], msg);
    }
    forall x | x in st2.models ensures OneEach(st2.models[x]) {
      if x != id { assert OneEach(st.models[x]); }
    }
  }

  lemma PutRep(st: Store, id: Id, m: Model)
    requires Rep(st, {}) && id !in st.models && ModelOk(m)
    requires OneEach(m) && forall msg: MsgId :: !Awaits(m, msg)
    ensures Rep(Put(st, id, m), {})
  {
    var st2 := Put(st, id, m);
    PutTraffic(st, id, m);
    assert forall x :: IsOutput(st, x) ==> IsOutput(st2, x);
    forall x | x in st2.models ensures ModelOk(st2.models[x]) {
      if x != id { assert ModelOk(st.models[x]); }
    }
  }

  lemma PutIds(w: World, st: Store, id: Id, c: Change)
    requires Ids(w, st) && id !in st.models && w.fromKernel != [] && w.fromKernel[0] == Open(id, c)
    ensures Ids(Rest(w), Put(st, id, Opened(c)))
  {
    var st2 := Put(st, id, Opened(c));
    IdsRest(w, st);
    assert w.fromKernel[0].Open?;
    forall i | 0 <= i < |Rest(w).fromKernel| && Rest(w).fromKernel[i].Open?
      ensures !IsLive(st2, Rest(w).fromKernel[i].id)
    {
      assert Rest(w).fromKernel[i] == w.fromKernel[i + 1];
      assert !IsOpenOf(w.fromKernel[i + 1], w.fromKernel[0].id);
    }
    forall x | x in w.kernel ensures KernelOk(Rest(w), st2, x) {
      assert KernelOk(w, st, x);
      assert IsOpenOf(w.fromKernel[0], id);
    }
  }

  lemma PutLog(w: World, st: Store, id: Id, c: Change)
    requires LogOk(w.now, st, Nothing) && Unlogged(st.log, id) && id !in st.models
    ensures LogOk(w.now, Put(st, id, Opened(c)), Nothing)
  {
    var st2 := Put(st, id, Opened(c));
    forall x ensures SumOk(st2, Nothing, x) {
      assert SumOk(st, Nothing, x);
      if x == id { SumsUnlogged(st.log, id); }
    }
    forall x | IsLive(st2, x) ensures SentBy(st2.log, x, st2.models[x].outSentAt) {
      if x != id { assert SentBy(st.log, x, st.models[x].outSentAt); }
    }
  }

  lemma PutMirror(w: World, st: Store, id: Id, c: Change)
    requires Mirror(w, st, Nothing) && WaitingOk(st, {}) && id !in st.models
    requires w.fromKernel != [] && w.fromKernel[0] == Open(id, c)
    ensures Mirror(Rest(w), Put(st, id, Opened(c)), Nothing)
  {
    var st2 := Put(st, id, Opened(c));
    forall x, key ensures Follows(w, st, st2, x, key) {}
    ConsumeMirror(w, st, st2);
  }

  lemma PutTimers(w: World, st: Store, id: Id, c: Change)
    requires TimersOk(w, st) && Traffic(st) && id !in st.models && w.fromKernel != []
    ensures TimersOk(Rest(w), Put(st, id, Opened(c)))
  {
    var st2 := Put(st, id, Opened(c));
    assert Armed(Rest(w), st2) == Armed(w, st);
    forall x: Id, msg: MsgId | CheckTimer(x, msg) in Armed(w, st) ensures ForUpdate(st2, x, msg) {
      assert ForUpdate(st, x, msg);
    }
  }

  lemma PutGood(w: World, st: Store, id: Id, c: Change)
    requires Good(w, st, Nothing, {}) && id !in st.models
    requires w.fromKernel != [] && w.fromKernel[0] == Open(id, c)
    ensures Good(Rest(w), Put(st, id, Opened(c)), Nothing, {})
  {
    assert w.fromKernel[0].Open? && EventOk(w.fromKernel[0]);
    OpenedOk(c);
    PutRep(st, id, Opened(c));
    PutIds(w, st, id, c);
    PutLog(w, st, id, c);
    PutMirror(w, st, id, c);
    PutTimers(w, st, id, c);
  }

  lemma InsertIs(st: Store, id: Id, m: Model)
    ensures var st1 := Put(DropModel(st, id), id, m);
            var msg := StrOf(ValueOf(m.attrs, "msg_id"));
            Insert(st, id, m) == Emit(if m.name == OUTPUT_MODEL && msg != "" then AddCapture(st1, msg, id) else st1, Notify(id))
  {
  }

  lemma ReplaceGood(w: World, st: Store, id: Id, c: Change)
    requires Good(w, st, Nothing, {}) && w.fromKernel != [] && w.fromKernel[0] == Open(id, c)
    ensures Good(Rest(w), Put(DropModel(st, id), id, Opened(c)), Nothing, {})
  {
    assert w.fromKernel[0].Open?;
    assert !IsLive(st, id);
    DropDeadGood(w, st, id);
    PutGood(w, DropModel(st, id), id, c);
  }

  /** What is left of an insertion once the model is there. */
  lemma PlacedGood(w: World, st: Store, id: Id, m: Model, msg: string)
    requires Good(w, st, Nothing, {}) && id in st.models && st.models[id] == m && m.live
    ensures Good(w, Emit(if m.name == OUTPUT_MODEL && msg != "" then AddCapture(st, msg, id) else st, Notify(id)), Nothing, {})
  {
    if m.name == OUTPUT_MODEL && msg != "" {
      AddCaptureGood(w, st, msg, id);
      NotifyGood(w, AddCapture(st, msg, id), id);
    } else {
      NotifyGood(w, st, id);
    }
  }

  lemma InsertGood(w: World, st: Store, id: Id, c: Change)
    requires Good(w, st, Nothing, {}) && w.fromKernel != [] && w.fromKernel[0] == Open(id, c)
    ensures Good(Rest(w), Insert(st, id, Opened(c)), Nothing, {})
  {
    var m := Opened(c);
    InsertIs(st, id, m);
    ReplaceGood(w, st, id, c);
    PlacedGood(Rest(w), Put(DropModel(st, id), id, m), id, m, StrOf(ValueOf(m.attrs, "msg_id")));
  }

  lemma CommOpenGood(w: World, st: Store, id: Id, c: Change, e: Env)
    requires Good(w, st, Nothing, {}) && w.fromKernel != [] && w.fromKernel[0] == Open(id, c) && e.now == w.now
    ensures Good(Rest(w), CommOpen(st, id, c, e), Nothing, {})
  {
    var m := Opened(c);
    InsertGood(w, st, id, c);
    var st1 := Insert(st, id, m);
    InsertIs(st, id, m);
    if LinkOf(m).Some? {
      IndexLinkGood(Rest(w), st1, id, LinkOf(m).value);
      ApplyLinkGood(Rest(w), IndexLink(st1, id, LinkOf(m).value), id, e);
    } else {
      ApplyLinksGood(Rest(w), st1, LinksAt(st1, id), e);
    }
  }

  // ---- captured outputs ----

  /** The captures of an Output widget changed: the outputs are dirty now. */
  function Dirtied(st: Store, id: Id, outputs: seq<Value>, clearPending: bool): Store
    requires id in st.models
  {
    st.(models := st.models[id := SetOutputs(st.models[id], outputs).(clearPending := clearPending)],
        waiting := st.waiting + {id})
  }

  lemma SetOutputsOk(m: Model, outputs: seq<Value>, clearPending: bool)
    requires ModelOk(m) && m.live && m.name == OUTPUT_MODEL
    ensures ModelOk(SetOutputs(m, outputs).(clearPending := clearPending))
  {
    var m2 := SetOutputs(m, outputs).(clearPending := clearPending);
    forall k | k in m2.attrs ensures SlotOk(m2, k) {
      if k != "outputs" { assert SlotOk(m, k); }
    }
  }

  lemma DirtiedRep(st: Store, id: Id, outputs: seq<Value>, clearPending: bool)
    requires Rep(st, {}) && IsOutput(st, id)
    ensures Rep(Dirtied(st, id, outputs, clearPending), {id})
  {
    var st2 := Dirtied(st, id, outputs, clearPending);
    assert ModelOk(st.models[id]) && OneEach(st.models[id]);
    SetOutputsOk(st.models[id], outputs, clearPending);
    assert st.inflight - {} == st.inflight;
    TrafficStep(st, st2, id, {}, false);
    RepStep(st, st2, {}, {id}, id);
  }

  lemma DirtiedMirror(w: World, st: Store, id: Id, outputs: seq<Value>, clearPending: bool)
    requires Mirror(w, st, Nothing) && Ids(w, st) && IsOutput(st, id)
    ensures Mirror(w, Dirtied(st, id, outputs, clearPending), Nothing)
  {
    var st2 := Dirtied(st, id, outputs, clearPending);
    forall x, key ensures InStep(w, st2, Nothing, x, key) {
      assert InStep(w, st, Nothing, x, key);
      var v, v2 := ViewOf(st, x, key), ViewOf(st2, x, key);
      FoldKeepsLive(w.fromKernel, v, v2, x, key, IsOut(w, x));
      FoldKeepsExp(w.fromKernel, v, v2, x, key, IsOut(w, x));
      if x == id && key == "outputs" {
        if id in w.kernel { assert KernelOk(w, st, id); }
      } else {
        assert v == v2;
      }
    }
  }

  lemma DirtiedRest(w: World, st: Store, id: Id, outputs: seq<Value>, clearPending: bool)
    requires Ids(w, st) && TimersOk(w, st) && LogOk(w.now, st, Nothing) && IsOutput(st, id)
    ensures var st2 := Dirtied(st, id, outputs, clearPending);
            Ids(w, st2) && TimersOk(w, st2) && LogOk(w.now, st2, Nothing)
  {
    var st2 := Dirtied(st, id, outputs, clearPending);
    IdsStep(w, st, st2, id);
    TimersStep(w, st, st2, id);
    forall x ensures SumOk(st2, Nothing, x) { assert SumOk(st, Nothing, x); }
    forall x | IsLive(st2, x) ensures SentBy(st2.log, x, st2.models[x].outSentAt) {
      assert SentBy(st.log, x, st.models[x].outSentAt);
    }
  }

  lemma CapturesGood(w: World, st: Store, id: Id, outputs: seq<Value>, clearPending: bool)
    requires Good(w, st, Nothing, {}) && IsOutput(st, id)
    ensures Good(w, Captures(st, id, outputs, clearPending), Nothing, {})
  {
    var st1 := Dirtied(st, id, outputs, clearPending);
    DirtiedRep(st, id, outputs, clearPending);
    DirtiedRest(w, st, id, outputs, clearPending);
    DirtiedMirror(w, st, id, outputs, clearPending);
    NotifySlackGood(w, st1, id, {id});
    var st2 := Emit(st1, Notify(id));
    assert {id} - {id} == {};
    if !st.models[id].flushScheduled && st.models[id].outInflight.None? {
      ArmGood(w, st2, Nothing, {id}, id, OUTPUT_FLUSH);
    } else {
      Unslack(w, st2, Nothing, {id}, id);
    }
  }

  lemma RouteOutputGood(w: World, st: Store, parent: string, ev: OutputFold.Event)
    requires Good(w, st, Nothing, {})
    ensures Good(w, RouteOutput(st, parent, ev), Nothing, {})
  {
    var id := CapturingModel(st, parent);
    if id.Some? {
      var m := st.models[id.value];
      var f := OutputFold.Captured(OutputFold.Folded(OutputsOf(m), m.clearPending), ev);
      CapturesGood(w, st, id.value, f.outputs, f.clearPending);
    }
  }

  lemma UpdateDisplayOfGood(w: World, st: Store, id: Id, display: string, data: Value, metadata: Value)
    requires Good(w, st, Nothing, {})
    ensures Good(w, UpdateDisplayOf(st, id, display, data, metadata), Nothing, {})
  {
    if IsOutput(st, id) {
      CapturesGood(w, st, id, Redisplayed(OutputsOf(st.models[id]), display, data, metadata), st.models[id].clearPending);
    }
  }

  lemma {:induction false} UpdateDisplayGood(w: World, st: Store, order: seq<Id>, display: string, data: Value, metadata: Value)
    requires Good(w, st, Nothing, {})
    ensures Good(w, UpdateDisplay(st, order, display, data, metadata), Nothing, {})
    decreases |order|
  {
    if order != [] {
      UpdateDisplayOfGood(w, st, order[0], display, data, metadata);
      var st2 := UpdateDisplayOf(st, order[0], display, data, metadata);
      UpdateDisplayGood(w, st2, order[1..], display, data, metadata);
    }
  }

  // ---- messages that carry no attribute ----

  lemma PostSends(w: World, st: Store, comm: Id, body: Body, cell: Option<string>)
    ensures var st2 := Post(st, comm, body, cell);
            Wire(w, st2) == Wire(w, st) + [Outgoing(comm, st.next, body, cell)] && Armed(w, st2) == Armed(w, st)
  {
    var send := Send(Outgoing(comm, st.next, body, cell));
    SendsSnoc(st.fx, send);
    assert [send][..0] == [];
    assert TimersOf([send]) == multiset{};
  }

  lemma PostMirror(w: World, st: Store, comm: Id, body: Body, cell: Option<string>)
    requires Mirror(w, st, Nothing) && !body.Update?
    ensures Mirror(w, Post(st, comm, body, cell), Nothing)
  {
    var st2 := Post(st, comm, body, cell);
    PostSends(w, st, comm, body, cell);
    forall x, key ensures InStep(w, st2, Nothing, x, key) {
      assert InStep(w, st, Nothing, x, key);
      LastCarrierSnoc(Wire(w, st), Outgoing(comm, st.next, body, cell), x, key);
    }
  }

  lemma PostRest(w: World, st: Store, comm: Id, body: Body, cell: Option<string>)
    requires Ids(w, st) && LogOk(w.now, st, Nothing) && !body.Update?
    ensures Ids(w, Post(st, comm, body, cell)) && LogOk(w.now, Post(st, comm, body, cell), Nothing)
  {
    var st2 := Post(st, comm, body, cell);
    PostSends(w, st, comm, body, cell);
    forall x ensures SumOk(st2, Nothing, x) { assert SumOk(st, Nothing, x); }
    forall x | x in w.kernel ensures KernelOk(w, st2, x) { assert KernelOk(w, st, x); }
  }

  lemma PostTraffic(st: Store, comm: Id, body: Body, cell: Option<string>)
    requires Traffic(st)
    ensures Traffic(Post(st, comm, body, cell))
  {
  }

  lemma PostRep(st: Store, comm: Id, body: Body, cell: Option<string>)
    requires Rep(st, {})
    ensures Rep(Post(st, comm, body, cell), {})
  {
    PostTraffic(st, comm, body, cell);
    assert forall x :: IsOutput(st, x) <==> IsOutput(Post(st, comm, body, cell), x);
  }

  lemma PostTimers(w: World, st: Store, comm: Id, body: Body, cell: Option<string>)
    requires TimersOk(w, st)
    ensures TimersOk(w, Post(st, comm, body, cell))
  {
    var st2 := Post(st, comm, body, cell);
    PostSends(w, st, comm, body, cell);
    forall x: Id, msg: MsgId | CheckTimer(x, msg) in Armed(w, st) ensures msg < st2.next && ForUpdate(st2, x, msg) {
      assert ForUpdate(st, x, msg);
    }
  }

  lemma PostGood(w: World, st: Store, comm: Id, body: Body, cell: Option<string>)
    requires Good(w, st, Nothing, {}) && !body.Update?
    ensures Good(w, Post(st, comm, body, cell), Nothing, {})
  {
    PostRep(st, comm, body, cell);
    PostTimers(w, st, comm, body, cell);
    PostRest(w, st, comm, body, cell);
    PostMirror(w, st, comm, body, cell);
  }

  // ---- the frontend ----

  lemma FrontendUpdateGood(w: World, st: Store, id: Id, c: Change, cell: Option<string>, e: Env)
    requires Good(w, st, Nothing, {}) && e.now == w.now
    ensures Good(w, FrontendUpdate(st, id, c, cell, e), Nothing, {})
  {
    if IsLive(st, id) && c.attrs != map[] {
      LocalChangeGood(w, st, {}, id, c.attrs, cell, e);
      FollowChangeGood(w, LocalChange(st, id, c.attrs, cell, e), id, ChangedKeys(st, id, c), e);
    }
  }

  lemma FrontendCustomGood(w: World, st: Store, id: Id, content: Value, cell: Option<string>, e: Env)
    requires Good(w, st, Nothing, {}) && e.now == w.now
    ensures Good(w, FrontendCustom(st, id, content, cell, e), Nothing, {})
  {
    if IsLive(st, id) {
      FlushAllGood(w, st, Nothing, {}, e.order);
      PostGood(w, FlushAll(st, e.order, e.now), id, Custom(content), cell);
    }
  }

  // ---- a restart ----

  /** The kernel is gone, with both channels; the timers stay. */
  function Restarted(w: World): World {
    w.(toKernel := [], fromKernel := [], kernel := map[])
  }

  lemma DisconnectedOk(m: Model)
    requires ModelOk(m)
    ensures ModelOk(Disconnected(m)) && OneEach(Disconnected(m))
  {
    forall k | k in m.attrs ensures SlotOk(Disconnected(m), k) { assert SlotOk(m, k); }
  }

  lemma ResetRep(st: Store, keep: set<Id>)
    requires ModelsOk(st)
    ensures Rep(Reset(st, keep), {})
  {
    var st2 := Reset(st, keep);
    forall id | id in st2.models ensures ModelOk(st2.models[id]) && OneEach(st2.models[id]) && st2.models[id] == Disconnected(st.models[id]) {
      DisconnectedOk(st.models[id]);
    }
  }

  lemma ResetMirror(w: World, st: Store, keep: set<Id>)
    requires st.fx == []
    ensures Mirror(Restarted(w), Reset(st, keep), Nothing)
  {
    assert Wire(Restarted(w), Reset(st, keep)) == [] by { assert Sends([]) == []; }
    forall x, key ensures InStep(Restarted(w), Reset(st, keep), Nothing, x, key) {}
  }

  lemma ResetLog(now: Time, st: Store, keep: set<Id>)
    requires LogOk(now, st, Nothing)
    ensures LogOk(now, Reset(st, keep), Nothing)
  {
    forall x ensures SumOk(Reset(st, keep), Nothing, x) && !IsLive(Reset(st, keep), x) {}
  }

  lemma ResetIds(w: World, st: Store, keep: set<Id>)
    requires Ids(w, st) && st.fx == []
    ensures Ids(Restarted(w), Reset(st, keep))
  {
    assert Wire(Restarted(w), Reset(st, keep)) == [] by { assert Sends([]) == []; }
    assert forall x :: !IsLive(Reset(st, keep), x);
  }

  lemma ResetTimers(w: World, st: Store, keep: set<Id>)
    requires TimersOk(w, st) && st.fx == []
    ensures TimersOk(Restarted(w), Reset(st, keep))
  {
    assert Armed(Restarted(w), Reset(st, keep)) == Armed(w, st);
  }

  lemma ResetGood(w: World, st: Store, keep: set<Id>)
    requires Good(w, st, Nothing, {}) && st.fx == []
    ensures Good(Restarted(w), Reset(st, keep), Nothing, {})
  {
    ResetRep(st, keep);
    ResetMirror(w, st, keep);
    ResetLog(w.now, st, keep);
    ResetIds(w, st, keep);
    ResetTimers(w, st, keep);
  }
}
