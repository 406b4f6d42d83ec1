/** What one call of the store means to the rest of it and to the kernel: what is forgotten, what
    goes out, and what is armed instead (core/src/widgets.rs). */
module WidgetEffects {
  import opened Json
  import opened Attributes
  import opened WidgetStore
  import opened WidgetInvariants
  import opened WidgetSteps
  import opened WidgetFlow
  import opened WidgetLinkSteps
  import opened WidgetLifecycle
  import opened WidgetRequests
  import opened WidgetRep

  // ---- a model that goes ----

  /** The request's output is captured by the model, or would be once the later ones end. */
  predicate IsCapturer(st: Store, request: string, id: Id) {
    request in st.capture && id in st.capture[request]
  }

  predicate InFlightOf(st: Store, msg: MsgId, id: Id) {
    msg in st.inflight && st.inflight[msg] == id
  }

  /** Nothing names the model any more, and everything said of the others is as it was. */
  ghost predicate Forgotten(st: Store, st2: Store, id: Id) {
    && st2.models == st.models - {id}
    && st2.waiting == st.waiting - {id}
    && (forall msg, x :: InFlightOf(st2, msg, x) <==> InFlightOf(st, msg, x) && x != id)
    && (forall request, x :: IsCapturer(st2, request, x) <==> IsCapturer(st, request, x) && x != id)
    && (forall request <- st2.capture :: st2.capture[request] != [])
    && st2.links == st.links - {id}
    && (forall end, l :: Indexed(st2.linkIndex, end, l) <==> Indexed(st.linkIndex, end, l) && l != id)
  }

  lemma RemovedForgets(st: Store, id: Id)
    requires id in st.models
    ensures var st2 := Removed(st, id);
            && (forall msg, x :: InFlightOf(st2, msg, x) <==> InFlightOf(st, msg, x) && x != id)
            && (forall request, x :: IsCapturer(st2, request, x) <==> IsCapturer(st, request, x) && x != id)
            && (forall request <- st2.capture :: st2.capture[request] != [])
  {
    var st2 := Removed(st, id);
    forall request, x ensures IsCapturer(st2, request, x) <==> IsCapturer(st, request, x) && x != id {
      if request in st.capture {
        assert x in Without(st.capture[request], id) <==> x in st.capture[request] && x != id;
      }
    }
  }

  lemma UnindexForgets(st: Store, id: Id, end: Id, l: Id)
    requires IndexOk(st.links, st.linkIndex)
    ensures Indexed(UnindexLink(st, id).linkIndex, end, l) <==> Indexed(st.linkIndex, end, l) && l != id
  {
    UnindexOk(st, id);
    var st2 := UnindexLink(st, id);
    assert Indexed(st2.linkIndex, end, l) <==> l in st2.links && Touches(st2.links[l], end);
    assert Indexed(st.linkIndex, end, l) <==> l in st.links && Touches(st.links[l], end);
  }

  lemma NothingNames(st: Store, id: Id)
    requires Rep(st, {}) && id !in st.models
    ensures Forgotten(st, st, id)
  {
    assert st.models - {id} == st.models && st.links - {id} == st.links;
    assert st.waiting - {id} == st.waiting by { assert !IsOutput(st, id); }
  }

  /** drop_model: every reference to the model goes, with empty lists, and no other. */
  lemma DropForgets(st: Store, id: Id)
    requires Rep(st, {})
    ensures Forgotten(st, DropModel(st, id), id) && DropModel(st, id).fx == st.fx
  {
    if id !in st.models {
      NothingNames(st, id);
    } else {
      RemovedForgets(st, id);
      UnindexOk(Removed(st, id), id);
      forall end, l ensures Indexed(DropModel(st, id).linkIndex, end, l) <==> Indexed(st.linkIndex, end, l) && l != id {
        UnindexForgets(Removed(st, id), id, end, l);
      }
    }
  }

  /** comm_close: so it does for a model that closes, and only a model that was there is told of. */
  lemma CloseForgets(st: Store, id: Id)
    requires Rep(st, {})
    ensures Forgotten(st, CommClose(st, id), id)
    ensures CommClose(st, id).fx == st.fx + if id in st.models then [Notify(id)] else []
  {
    DropForgets(st, id);
  }

  /** comm_open of an unknown target: one message goes out, a close of that comm under an id never
      used before, and nothing else happens. */
  lemma RefusalCloses(st: Store, comm: Id)
    requires Rep(st, {})
    ensures var st2 := RefuseOpen(st, comm);
            && |st2.fx| == |st.fx| + 1 && st.fx <= st2.fx && st2.fx[|st.fx|].Send?
            && var m := st2.fx[|st.fx|].msg;
               && m.comm == comm && m.body == Close
               && m.id !in st.ours && m.id !in st.inflight && st2.ours == st.ours + {m.id}
               && st2 == st.(fx := st2.fx, ours := st2.ours, next := st2.next)
  {
  }

  // ---- pacing ----

  /** The outputs of the model as they stood went out, in one message, and are waited for. */
  predicate SentNow(st: Store, st2: Store, id: Id, now: Time)
    requires id in st.models
  {
    && |st2.fx| == |st.fx| + 1 && st.fx <= st2.fx && IsFlushOf(st2.fx[|st.fx|], id, st.models[id])
    && id !in st2.waiting && id in st2.models && st2.models[id].outSentAt == Some(now)
    && st2.models[id].outInflight == Some(st2.fx[|st.fx|].msg.id)
  }

  /** A timer was armed for the rest of the cadence, and nothing went out. */
  predicate ArmedNow(st: Store, st2: Store, id: Id, now: Time)
    requires id in st.models && st.models[id].outSentAt.Some?
  {
    && |st2.fx| == |st.fx| + 1 && st.fx <= st2.fx && st2.fx[|st.fx|].FlushOutputsAfter?
    && st2.fx[|st.fx|].model == id && id in st2.models && st2.models[id].flushScheduled
    && var delay, sentAt := st2.fx[|st.fx|].delay, st.models[id].outSentAt.value;
       && 0 < delay <= OUTPUT_FLUSH
       && (sentAt <= now ==> now + delay == sentAt + OUTPUT_FLUSH)
  }

  /** Only this model changed, by what a flush or a timer changes in it. */
  predicate OnlyPaced(st: Store, st2: Store, id: Id) {
    && st2.models.Keys == st.models.Keys
    && (forall x <- st.models | x != id :: st2.models[x] == st.models[x])
    && (id in st.models ==> st2.models[id].attrs == st.models[id].attrs && st2.models[id].pending == st.models[id].pending)
    && st2.waiting - {id} == st.waiting - {id}
    && st2.capture == st.capture && st2.links == st.links && st2.linkIndex == st.linkIndex
  }

  /** paced_flush: captures that can go out do when the cadence allows it; until then there is one
      timer for the rest of it, armed now or before. */
  lemma PacedFlushPaces(st: Store, id: Id, now: Time)
    ensures var st2 := PacedFlush(st, id, now);
            && OnlyPaced(st, st2, id)
            && (CanGo(st2, id) ==> st2.models[id].flushScheduled)
            && if !CanGo(st, id) then st2 == st
               else if PacedNow(st.models[id], now) then SentNow(st, st2, id, now)
               else if st.models[id].flushScheduled then st2 == st
               else ArmedNow(st, st2, id, now)
  {
    PacedFlushIs(st, id, now);
    if CanGo(st, id) {
      if PacedNow(st.models[id], now) {
        SendOutputsPaces(st, id, now);
      } else if !st.models[id].flushScheduled {
        ArmPaces(st, id, OUTPUT_FLUSH - Since(now, st.models[id].outSentAt.value));
      }
    }
  }

  lemma SendOutputsPaces(st: Store, id: Id, now: Time)
    requires CanGo(st, id)
    ensures var st2 := SendOutputs(st, id, now, true);
            OnlyPaced(st, st2, id) && !CanGo(st2, id) && SentNow(st, st2, id, now)
  {
  }

  lemma ArmPaces(st: Store, id: Id, delay: Time)
    requires id in st.models
    ensures var st2 := Arm(st, id, delay);
            && OnlyPaced(st, st2, id) && st2.models[id].flushScheduled
            && st2.fx == st.fx + [FlushOutputsAfter(id, delay)]
  {
  }

  /** flush_outputs: the timer's flag is clear before the pacing decides, so captures that still
      cannot go have a timer of this very call, and no flag is left set without one. */
  lemma TimerPaces(st: Store, id: Id, now: Time)
    requires id in st.models
    ensures var st2 := FlushOutputs(st, id, now);
            && OnlyPaced(st, st2, id)
            && if !CanGo(st, id) then st2.fx == st.fx && !st2.models[id].flushScheduled
               else if PacedNow(st.models[id], now) then SentNow(st, st2, id, now) && !st2.models[id].flushScheduled
               else ArmedNow(st, st2, id, now)
  {
    var st1 := st.(models := st.models[id := st.models[id].(flushScheduled := false)]);
    ClearedFlag(st, st1, id);
    PacedFlushPaces(st1, id, now);
    PacedFlushIs(st1, id, now);
    if CanGo(st1, id) && PacedNow(st1.models[id], now) { SendKeepsFlag(st1, id, now); }
    OnlyPacedTwice(st, st1, PacedFlush(st1, id, now), id);
  }

  lemma ClearedFlag(st: Store, st1: Store, id: Id)
    requires id in st.models && st1 == st.(models := st.models[id := st.models[id].(flushScheduled := false)])
    ensures OnlyPaced(st, st1, id) && st1.fx == st.fx && FlushBody(st1.models[id]) == FlushBody(st.models[id])
    ensures CanGo(st1, id) == CanGo(st, id) && st1.models[id].outSentAt == st.models[id].outSentAt
  {
  }

  lemma SendKeepsFlag(st: Store, id: Id, now: Time)
    requires CanGo(st, id)
    ensures SendOutputs(st, id, now, true).models[id].flushScheduled == st.models[id].flushScheduled
  {
  }

  lemma OnlyPacedTwice(a: Store, b: Store, c: Store, id: Id)
    requires OnlyPaced(a, b, id) && OnlyPaced(b, c, id)
    ensures OnlyPaced(a, c, id)
  {
  }

  /** A timer the pacing armed sends the captures when it fires, whatever was captured meanwhile,
      unless a request sent them before. */
  lemma ArmedTimerSends(st: Store, st2: Store, later: Store, id: Id, now: Time, fires: Time)
    requires id in st.models && st.models[id].outSentAt.Some? && ArmedNow(st, st2, id, now) && st.models[id].outSentAt.value <= now
    requires fires >= now + st2.fx[|st.fx|].delay
    requires CanGo(later, id) && later.models[id].outSentAt == st.models[id].outSentAt
    ensures SentNow(later, FlushOutputs(later, id, fires), id, fires)
  {
    TimerPaces(later, id, fires);
  }

  // ---- our messages that are over ----

  /** Every id that came into use is a new one. */
  predicate OnlyNew(st: Store, st2: Store) {
    && st.next <= st2.next
    && (forall msg <- st2.ours :: msg in st.ours || msg >= st.next)
    && (forall msg <- st2.inflight :: msg in st.inflight || msg >= st.next)
  }

  lemma {:induction false} FlushAllOnlyNew(st: Store, order: seq<Id>, now: Time)
    ensures OnlyNew(st, FlushAll(st, order, now))
    decreases |order|
  {
    if order != [] { FlushAllOnlyNew(SendOutputs(st, order[0], now, false), order[1..], now); }
  }

  lemma PutUpdateOnlyNew(st: Store, id: Id, update: Attrs, cell: Option<string>, now: Time)
    requires id in st.models
    ensures OnlyNew(st, PutUpdate(st, id, update, cell, now))
  {
  }

  lemma SendUpdateOnlyNew(st: Store, id: Id, update: Attrs, cell: Option<string>, e: Env)
    requires id in st.models
    ensures OnlyNew(st, SendUpdate(st, id, update, cell, e))
  {
    FlushAllKeepsModels(st, e.order, e.now);
    FlushAllOnlyNew(st, e.order, e.now);
    PutUpdateOnlyNew(FlushAll(st, e.order, e.now), id, update, cell, e.now);
  }

  lemma PacedFlushOnlyNew(st: Store, id: Id, now: Time)
    ensures OnlyNew(st, PacedFlush(st, id, now))
  {
  }

  /** The message is new and in flight, and its timer is armed. */
  predicate InFlightNow(st: Store, st2: Store, id: Id, msg: MsgId, now: Time)
    requires id in st2.models && st2.fx != []
  {
    && msg >= st.next && st2.models[id].inflight == Some(Inflight(msg, now))
    && msg in st2.inflight && st2.inflight[msg] == id
    && st2.fx[|st2.fx| - 1] == CheckInflightAfter(id, msg, INFLIGHT_TIMEOUT)
  }

  /** The update went out last in its call, after every capture that could go, and is waited for
      under a new id; the model holds nothing more. */
  ghost predicate WentOut(st: Store, st2: Store, id: Id, update: Attrs, cell: Option<string>, now: Time) {
    && id in st2.models && st2.models[id].pending == map[] && st2.models[id].pendingCell.None?
    && |st2.fx| >= |st.fx| + 2 && st.fx <= st2.fx && IsUpdateOf(st2.fx[|st2.fx| - 2], id, update, cell)
    && InFlightNow(st, st2, id, st2.fx[|st2.fx| - 2].msg.id, now)
    && forall x | CanGo(st, x) :: x in st.models && FlushedWithin(st2.fx, |st.fx|, |st2.fx| - 2, x, st.models[x])
  }

  lemma {:induction false} FlushAllGrows(st: Store, order: seq<Id>, now: Time)
    ensures st.next <= FlushAll(st, order, now).next
    decreases |order|
  {
    if order != [] { FlushAllGrows(SendOutputs(st, order[0], now, false), order[1..], now); }
  }

  lemma PutUpdateGoes(st: Store, id: Id, update: Attrs, cell: Option<string>, now: Time)
    requires id in st.models && st.models[id].pending == map[] && st.models[id].pendingCell.None?
    ensures var st2 := PutUpdate(st, id, update, cell, now);
            && st2.fx == st.fx + [Send(Outgoing(id, st.next, Update(update), cell)), CheckInflightAfter(id, st.next, INFLIGHT_TIMEOUT)]
            && id in st2.models && st2.models[id].pending == map[] && st2.models[id].pendingCell.None?
            && st2.models[id].inflight == Some(Inflight(st.next, now)) && st2.inflight[st.next := id] == st2.inflight
  {
  }

  /** `taken` is the store before the message, apart from the model that sends. */
  lemma SendUpdateGoes(st: Store, taken: Store, id: Id, update: Attrs, cell: Option<string>, e: Env)
    requires taken.models.Keys == st.models.Keys
    requires id in taken.models && taken.models[id].pending == map[] && taken.models[id].pendingCell.None?
    requires taken.fx == st.fx && taken.next == st.next && (forall x | CanGo(st, x) :: x in e.order)
    requires forall x :: CanGo(taken, x) <==> CanGo(st, x)
    requires forall x | CanGo(st, x) :: FlushBody(taken.models[x]) == FlushBody(st.models[x])
    ensures WentOut(st, SendUpdate(taken, id, update, cell, e), id, update, cell, e.now)
  {
    var flushed, st2 := FlushAll(taken, e.order, e.now), SendUpdate(taken, id, update, cell, e);
    UpdateGoesLast(taken, id, update, cell, e);
    FlushAllKeepsModels(taken, e.order, e.now);
    FlushAllKeepsPending(taken, e.order, e.now, id);
    FlushAllGrows(taken, e.order, e.now);
    PutUpdateGoes(flushed, id, update, cell, e.now);
    assert st2.inflight == st2.inflight[flushed.next := id];
    forall x | CanGo(st, x) ensures FlushedWithin(st2.fx, |st.fx|, |st2.fx| - 2, x, st.models[x]) {
      assert FlushedWithin(st2.fx, |taken.fx|, |st2.fx| - 2, x, taken.models[x]);
      var k :| |taken.fx| <= k < |st2.fx| - 2 && IsFlushOf(st2.fx[k], x, taken.models[x]);
      assert IsFlushOf(st2.fx[k], x, st.models[x]);
    }
  }

  /** The message is the one the model waits for before it sends again. */
  predicate IsCurrent(st: Store, id: Id, msg: MsgId) {
    id in st.models && st.models[id].inflight.Some? && st.models[id].inflight.value.id == msg
  }

  /** The update is over and is forgotten; what it held back goes out, or nothing does. */
  ghost predicate Released(st: Store, st2: Store, id: Id, msg: MsgId, now: Time) {
    && msg !in st2.inflight
    && if IsCurrent(st, id, msg) && st.models[id].pending != map[]
       then WentOut(st, st2, id, st.models[id].pending, st.models[id].pendingCell, now)
       else st2.fx == st.fx && st2.waiting == st.waiting &&
            st2.models == if IsCurrent(st, id, msg) then st.models[id := st.models[id].(inflight := None)] else st.models
  }

  lemma LetGoAsks(st: Store, id: Id, ours: set<MsgId>)
    requires id in st.models && st.models[id].inflight.Some?
    ensures var st1 := LetGo(st, id, ours);
            && st1.fx == st.fx && st1.next == st.next && st1.waiting == st.waiting
            && (forall x :: CanGo(st1, x) <==> CanGo(st, x))
            && (forall x <- st.models :: FlushBody(st1.models[x]) == FlushBody(st.models[x]))
            && st1.models[id].pending == map[] && st1.models[id].pendingCell.None?
  {
  }

  lemma CurrentIsOurs(st: Store, id: Id, msg: MsgId)
    requires Rep(st, {}) && IsCurrent(st, id, msg)
    ensures msg < st.next && msg in st.inflight && st.inflight[msg] == id
    ensures ModelOk(st.models[id]) && st.models[id].outInflight != Some(msg)
  {
    assert Awaits(st.models[id], msg) && OneEach(st.models[id]);
    assert msg in st.inflight && msg in st.ours;
  }

  lemma ReleaseOnlyNew(st: Store, id: Id, msg: MsgId, ours: set<MsgId>, e: Env)
    requires IsCurrent(st, id, msg) && ModelOk(st.models[id])
    ensures OnlyNew(st.(ours := ours, inflight := st.inflight - {msg}), Release(st.(ours := ours), id, msg, e))
  {
    var m, st1 := st.models[id], LetGo(st, id, ours);
    ReleaseIs(st, id, msg, ours, e);
    assert OnlyNew(st.(ours := ours, inflight := st.inflight - {msg}), st1);
    if m.pending != map[] { SendUpdateOnlyNew(st1, id, m.pending, m.pendingCell, e); }
  }

  lemma ReleaseGoes(st: Store, id: Id, msg: MsgId, ours: set<MsgId>, e: Env)
    requires IsCurrent(st, id, msg) && ModelOk(st.models[id]) && (forall x | CanGo(st, x) :: x in e.order)
    ensures var m, st2 := st.models[id], Release(st.(ours := ours), id, msg, e);
            if m.pending != map[] then WentOut(st, st2, id, m.pending, m.pendingCell, e.now)
            else st2.fx == st.fx && st2.waiting == st.waiting && st2.models == st.models[id := m.(inflight := None)]
  {
    var m, st1 := st.models[id], LetGo(st, id, ours);
    ReleaseIs(st, id, msg, ours, e);
    if m.pending != map[] {
      LetGoAsks(st, id, ours);
      SendUpdateGoes(st, st1, id, m.pending, m.pendingCell, e);
    } else {
      assert m.(inflight := None, pending := map[], pendingCell := None) == m.(inflight := None);
    }
  }

  lemma ReleaseCurrentFrees(st: Store, id: Id, msg: MsgId, ours: set<MsgId>, e: Env)
    requires Rep(st, {}) && IsCurrent(st, id, msg) && (forall x | CanGo(st, x) :: x in e.order)
    requires msg !in ours || ours == st.ours
    ensures Released(st, Release(st.(ours := ours), id, msg, e), id, msg, e.now)
    ensures msg !in ours ==> msg !in Release(st.(ours := ours), id, msg, e).ours
  {
    CurrentIsOurs(st, id, msg);
    ReleaseOnlyNew(st, id, msg, ours, e);
    ReleaseGoes(st, id, msg, ours, e);
  }

  lemma ReleaseOther(st: Store, id: Id, msg: MsgId, e: Env)
    requires !IsCurrent(st, id, msg)
    ensures Release(st, id, msg, e) == st.(inflight := st.inflight - {msg})
  {
  }

  /** release, after a timeout: the message is in flight no more for anybody. */
  lemma ReleaseFrees(st: Store, id: Id, msg: MsgId, e: Env)
    requires Rep(st, {}) && ForUpdate(st, id, msg) && (forall x | CanGo(st, x) :: x in e.order)
    ensures var st2 := Release(st, id, msg, e);
            Released(st, st2, id, msg, e.now) && forall x <- st2.models :: !Awaits(st2.models[x], msg)
  {
    if IsCurrent(st, id, msg) {
      assert st.(ours := st.ours) == st;
      ReleaseCurrentFrees(st, id, msg, st.ours, e);
    } else {
      ReleaseOther(st, id, msg, e);
    }
    ReleaseRep(st, id, msg, e);
    NotAwaited(Release(st, id, msg, e), msg);
  }

  lemma IdleEndsFlush(st: Store, id: Id, parent: MsgId, e: Env)
    requires Rep(st, {}) && id in st.models && st.models[id].outInflight == Some(parent)
    ensures var st2 := OnIdle(st, parent, e);
            && parent !in st2.ours && parent !in st2.inflight
            && (CanGo(st2, id) ==> st2.models[id].flushScheduled)
  {
    assert Awaits(st.models[id], parent) && parent in st.ours && parent < st.next && st.inflight[parent] == id;
    var st1 := Unpaced(st, id, false, parent);
    assert OnIdle(st, parent, e) == PacedFlush(st1, id, e.now);
    PacedFlushOnlyNew(st1, id, e.now);
    PacedFlushPaces(st1, id, e.now);
  }

  lemma IdleEndsUpdate(st: Store, id: Id, parent: MsgId, e: Env)
    requires Rep(st, {}) && IsCurrent(st, id, parent) && (forall x | CanGo(st, x) :: x in e.order)
    ensures var st2 := OnIdle(st, parent, e);
            parent !in st2.ours && Released(st, st2, id, parent, e.now)
  {
    CurrentIsOurs(st, id, parent);
    assert OnIdle(st, parent, e) == Release(st.(ours := st.ours - {parent}), id, parent, e);
    ReleaseCurrentFrees(st, id, parent, st.ours - {parent}, e);
  }

  lemma NotAwaited(st: Store, msg: MsgId)
    requires Traffic(st) && msg !in st.inflight
    ensures forall x <- st.models :: !Awaits(st.models[x], msg)
  {
  }

  /** on_idle: the message is not ours any more and nobody waits for it. The end of a flush leaves
      no capture without a timer or a flush; the end of an update releases what it held back; an
      idle for anything else changes nothing. */
  lemma IdleEnds(st: Store, parent: MsgId, e: Env)
    requires Rep(st, {}) && (forall x | CanGo(st, x) :: x in e.order)
    ensures var st2 := OnIdle(st, parent, e);
            && parent !in st2.ours && parent !in st2.inflight
            && (forall x <- st2.models :: !Awaits(st2.models[x], parent))
            && (parent !in st.inflight ==> st2 == st.(ours := st.ours - {parent}))
            && (forall id <- st.models | st.models[id].outInflight == Some(parent) ::
                  CanGo(st2, id) ==> st2.models[id].flushScheduled)
            && (forall id <- st.models | IsCurrent(st, id, parent) :: Released(st, st2, id, parent, e.now))
  {
    var st2 := OnIdle(st, parent, e);
    forall id | id in st.models && st.models[id].outInflight == Some(parent)
      ensures parent !in st2.ours && parent !in st2.inflight && (CanGo(st2, id) ==> st2.models[id].flushScheduled)
    {
      IdleEndsFlush(st, id, parent, e);
    }
    forall id | id in st.models && IsCurrent(st, id, parent)
      ensures parent !in st2.ours && parent !in st2.inflight && Released(st, st2, id, parent, e.now)
    {
      IdleEndsUpdate(st, id, parent, e);
    }
    if parent in st.inflight { assert Awaits(st.models[st.inflight[parent]], parent); }
    OnIdleRep(st, parent, e);
    NotAwaited(st2, parent);
  }

  // ---- a change for the kernel ----

  lemma HeldAsks(st: Store, id: Id, update: Attrs)
    requires id in st.models
    ensures var st1 := TakeHeld(Hold(st, id, update), id);
            && st1.fx == st.fx && st1.next == st.next
            && (forall x :: CanGo(st1, x) <==> CanGo(st, x))
            && (forall x <- st.models :: FlushBody(st1.models[x]) == FlushBody(st.models[x]))
            && id in st1.models && st1.models[id].pending == map[] && st1.models[id].pendingCell.None?
            && (st.models[id].inflight.Some? ==> st.models[id].inflight.value.id !in st1.inflight)
  {
  }

  lemma QueueHolds(st: Store, id: Id, update: Attrs, cell: Option<string>, e: Env)
    requires id in st.models && Holds(st.models[id], e.now)
    ensures var m, st2 := st.models[id], Queue(st, id, update, cell, e);
            && st2.fx == st.fx && st2.inflight == st.inflight
            && st2.models == st.models[id := m.(pending := Merge(m.pending, update),
                                                pendingCell := if cell.Some? then cell else m.pendingCell)]
  {
    var m2 := st.models[id].(pending := Merge(st.models[id].pending, update));
    assert st.models[id := m2][id := m2.(pendingCell := cell)] == st.models[id := m2.(pendingCell := cell)];
  }

  lemma QueueSends(st: Store, id: Id, update: Attrs, cell: Option<string>, e: Env)
    requires id in st.models && !Holds(st.models[id], e.now) && (forall x | CanGo(st, x) :: x in e.order)
    ensures var m, st2 := st.models[id], Queue(st, id, update, cell, e);
            WentOut(st, st2, id, Merge(m.pending, update), if cell.Some? then cell else m.pendingCell, e.now)
  {
    var m := st.models[id];
    HeldAsks(st, id, update);
    SendUpdateGoes(st, TakeHeld(Hold(st, id, update), id), id, Merge(m.pending, update),
                   if cell.Some? then cell else m.pendingCell, e);
  }

  lemma QueueForgets(st: Store, id: Id, update: Attrs, cell: Option<string>, e: Env)
    requires Traffic(st) && id in st.models && !Holds(st.models[id], e.now) && st.models[id].inflight.Some?
    ensures st.models[id].inflight.value.id !in Queue(st, id, update, cell, e).inflight
  {
    var m, taken := st.models[id], TakeHeld(Hold(st, id, update), id);
    HeldAsks(st, id, update);
    SendUpdateOnlyNew(taken, id, Merge(m.pending, update), if cell.Some? then cell else m.pendingCell, e);
    assert Awaits(m, m.inflight.value.id) && m.inflight.value.id in st.ours;
  }

  /** queue_for_kernel: while a recent update is in flight the change joins what is held and nothing
      goes out; otherwise it goes out with what was held, as one update, and an update too old to
      wait for is forgotten. */
  lemma QueueHoldsOrSends(st: Store, id: Id, update: Attrs, cell: Option<string>, e: Env)
    requires Traffic(st) && id in st.models && (forall x | CanGo(st, x) :: x in e.order)
    ensures var m, st2 := st.models[id], Queue(st, id, update, cell, e);
            var named := if cell.Some? then cell else m.pendingCell;
            if Holds(m, e.now) then
              && st2.fx == st.fx && st2.inflight == st.inflight
              && st2.models == st.models[id := m.(pending := Merge(m.pending, update), pendingCell := named)]
            else
              && WentOut(st, st2, id, Merge(m.pending, update), named, e.now)
              && (m.inflight.Some? ==> m.inflight.value.id !in st2.inflight)
  {
    if Holds(st.models[id], e.now) {
      QueueHolds(st, id, update, cell, e);
    } else {
      QueueSends(st, id, update, cell, e);
      if st.models[id].inflight.Some? { QueueForgets(st, id, update, cell, e); }
    }
  }

  // ---- a capture that moves ----

  lemma EndCaptureEnds(st: Store, parent: string, id: Id)
    ensures var st2 := EndCapture(st, parent, id);
            forall request, x :: IsCapturer(st2, request, x) <==> IsCapturer(st, request, x) && !(request == parent && x == id)
  {
    if parent in st.capture {
      assert forall x :: x in Without(st.capture[parent], id) <==> x in st.capture[parent] && x != id;
    }
  }

  lemma AddCaptureAdds(st: Store, parent: string, id: Id)
    requires id in st.models && st.models[id].live && st.models[id].name == OUTPUT_MODEL
    ensures var st2 := AddCapture(st, parent, id);
            && CapturingModel(st2, parent) == Some(id)
            && (forall request, x :: IsCapturer(st2, request, x) <==> IsCapturer(st, request, x) || (request == parent && x == id))
  {
    var ids := if parent in st.capture then st.capture[parent] else [];
    assert forall x :: x in Without(ids, id) <==> x in ids && x != id;
  }

  /** The model captures the new request's output, and the old one's no more; every other capture
      is as it was. */
  ghost predicate CaptureMoved(st: Store, st2: Store, id: Id, oldMsg: string, newMsg: string) {
    && (newMsg != "" ==> CapturingModel(st2, newMsg) == Some(id))
    && forall request, x :: IsCapturer(st2, request, x) <==>
         (newMsg != "" && request == newMsg && x == id) ||
         (IsCapturer(st, request, x) && !(oldMsg != "" && request == oldMsg && x == id))
  }

  /** capture_changed: the capture moves, and what the old one took is not left without a flush or
      a timer. */
  lemma CaptureMoves(st: Store, id: Id, oldMsg: string, newMsg: string, now: Time)
    requires Rep(st, {}) && IsOutput(st, id)
    ensures var st2 := CaptureChanged(st, id, oldMsg, newMsg, now);
            && IsOutput(st2, id) && CaptureMoved(st, st2, id, oldMsg, newMsg)
            && (id in st2.waiting ==> st2.models[id].outInflight.Some? || st2.models[id].flushScheduled)
            && (oldMsg != "" && CanGo(st, id) && PacedNow(st.models[id], now) ==> SentNow(st, st2, id, now))
            && (oldMsg == "" ==> st2.fx == st.fx)
  {
    var ended := EndCapture(st, oldMsg, id);
    var st1 := if oldMsg != "" then PacedFlush(ended, id, now) else st;
    var st2 := CaptureChanged(st, id, oldMsg, newMsg, now);
    CaptureChangedRep(st, id, oldMsg, newMsg, now);
    EndCaptureIs(st, oldMsg, id);
    PacedFlushKeepsOutput(ended, id, now, id);
    assert st2 == st1.(capture := st2.capture);
    assert IsOutput(st1, id) && IsOutput(st2, id);
    CaptureListsMove(st, st1, id, oldMsg, newMsg, now);
    if oldMsg != "" && CanGo(st, id) && PacedNow(st.models[id], now) {
      PacedFlushPaces(ended, id, now);
      assert SentNow(ended, st1, id, now);
    }
  }

  lemma CaptureListsMove(st: Store, st1: Store, id: Id, oldMsg: string, newMsg: string, now: Time)
    requires st1 == (if oldMsg != "" then PacedFlush(EndCapture(st, oldMsg, id), id, now) else st) && IsOutput(st1, id)
    ensures CaptureMoved(st, CaptureChanged(st, id, oldMsg, newMsg, now), id, oldMsg, newMsg)
  {
    if oldMsg != "" {
      EndCaptureEnds(st, oldMsg, id);
      PacedFlushPaces(EndCapture(st, oldMsg, id), id, now);
    }
    if newMsg != "" { AddCaptureAdds(st1, newMsg, id); }
  }

  /** What a change of the capture keeps of the models: all but the timer and the flush of this one. */
  lemma CaptureChangedPaces(st: Store, id: Id, oldMsg: string, newMsg: string, now: Time)
    requires IsOutput(st, id)
    ensures var st2 := CaptureChanged(st, id, oldMsg, newMsg, now);
            && CaptureMoved(st, st2, id, oldMsg, newMsg)
            && id in st2.models && st2.models[id].attrs == st.models[id].attrs
            && forall x <- st.models | x != id :: x in st2.models && st2.models[x] == st.models[x]
  {
    var ended := EndCapture(st, oldMsg, id);
    var st1 := if oldMsg != "" then PacedFlush(ended, id, now) else st;
    EndCaptureIs(st, oldMsg, id);
    PacedFlushKeepsOutput(ended, id, now, id);
    PacedFlushPaces(ended, id, now);
    CaptureListsMove(st, st1, id, oldMsg, newMsg, now);
    assert CaptureChanged(st, id, oldMsg, newMsg, now).models == st1.models;
  }

  /** kernel_update of an Output widget that is no end of a link: it takes the attributes, and if
      its msg_id is another one now, its capture moves. */
  lemma KernelUpdateMoves(st: Store, id: Id, c: Change, e: Env)
    requires IsOutput(st, id) && id !in st.linkIndex
    ensures var st2 := KernelUpdate(st, id, c, e);
            && id in st2.models && st2.models[id].attrs == Merge(st.models[id].attrs, c.attrs)
            && (forall x <- st.models | x != id :: x in st2.models && st2.models[x] == st.models[x])
            && var oldMsg := StrOf(ValueOf(st.models[id].attrs, "msg_id"));
               var newMsg := StrOf(ValueOf(st2.models[id].attrs, "msg_id"));
               if oldMsg == newMsg then st2.capture == st.capture else CaptureMoved(st, st2, id, oldMsg, newMsg)
  {
    var m := st.models[id];
    var st1 := Emit(SetAttrs(st, id, c.attrs), Notify(id));
    var oldMsg, newMsg := StrOf(ValueOf(m.attrs, "msg_id")), StrOf(ValueOf(st1.models[id].attrs, "msg_id"));
    assert IsOutput(st1, id) && st1.capture == st.capture;
    assert forall request, x :: IsCapturer(st1, request, x) <==> IsCapturer(st, request, x);
    CaptureChangedPaces(st1, id, oldMsg, newMsg, e.now);
    assert KernelUpdate(st, id, c, e) == if oldMsg != newMsg then CaptureChanged(st1, id, oldMsg, newMsg, e.now) else st1;
  }

  // ---- an update of a display ----

  predicate ShowsDisplay(out: Value, display: string) {
    Follow(out, [Name("transient"), Name("display_id")]) == Some(Str(display))
  }

  /** An output that shows the display has the new data and metadata, and every other field it had;
      any other output is as it was. */
  ghost predicate Redrawn(was: Value, now: Value, display: string, data: Value, metadata: Value) {
    if ShowsDisplay(was, display) then
      && Get(now, "data") == Some(data) && Get(now, "metadata") == Some(metadata)
      && forall k | k != "data" && k != "metadata" :: Get(now, k) == Get(was, k)
    else now == was
  }

  ghost predicate AllRedrawn(was: seq<Value>, now: seq<Value>, display: string, data: Value, metadata: Value) {
    |now| == |was| && forall i | 0 <= i < |was| :: Redrawn(was[i], now[i], display, data, metadata)
  }

  lemma ShowsIs(out: Value, display: string)
    ensures Shows(out, display) <==> ShowsDisplay(out, display)
  {
    var path := [Name("transient"), Name("display_id")];
    assert path[1..] == [Name("display_id")] && path[1..][1..] == [];
  }

  lemma RedisplayedRedraws(was: seq<Value>, display: string, data: Value, metadata: Value)
    ensures AllRedrawn(was, Redisplayed(was, display, data, metadata), display, data, metadata)
  {
    forall i | 0 <= i < |was|
      ensures Redrawn(was[i], Redisplayed(was, display, data, metadata)[i], display, data, metadata)
    {
      ShowsIs(was[i], display);
    }
  }

  lemma AllRedrawnNothing(was: seq<Value>, display: string, data: Value, metadata: Value)
    requires forall out <- was :: !ShowsDisplay(out, display)
    ensures AllRedrawn(was, was, display, data, metadata)
  {
    forall i | 0 <= i < |was| ensures Redrawn(was[i], was[i], display, data, metadata) { assert was[i] in was; }
  }

  /** What the call does to one model. */
  ghost predicate DisplayTaken(st: Store, st2: Store, id: Id, display: string, data: Value, metadata: Value)
    requires id in st.models
  {
    && id in st2.models
    && AllRedrawn(OutputsOf(st.models[id]), OutputsOf(st2.models[id]), display, data, metadata)
    && (forall k | k != "outputs" :: AttrOf(st2.models[id], k) == AttrOf(st.models[id], k))
    && AttrOf(st2.models[id], "outputs").bufs == AttrOf(st.models[id], "outputs").bufs
    && (id in st2.waiting <==> id in st.waiting || exists out <- OutputsOf(st.models[id]) :: ShowsDisplay(out, display))
  }

  lemma CapturesSets(st: Store, id: Id, outputs: seq<Value>, clearPending: bool)
    requires id in st.models
    ensures var st2 := WidgetStore.Captures(st, id, outputs, clearPending);
            && id in st2.models && OutputsOf(st2.models[id]) == outputs && st2.waiting == st.waiting + {id}
            && (forall k | k != "outputs" :: AttrOf(st2.models[id], k) == AttrOf(st.models[id], k))
            && AttrOf(st2.models[id], "outputs").bufs == AttrOf(st.models[id], "outputs").bufs
  {
    var m2 := WidgetStore.Captures(st, id, outputs, clearPending).models[id];
    assert m2.attrs == SetOutputs(st.models[id], outputs).attrs;
  }

  lemma DisplayTakenOne(st: Store, id: Id, display: string, data: Value, metadata: Value)
    requires IsOutput(st, id)
    ensures DisplayTaken(st, UpdateDisplayOf(st, id, display, data, metadata), id, display, data, metadata)
  {
    var was := OutputsOf(st.models[id]);
    forall out | out in was ensures Shows(out, display) <==> ShowsDisplay(out, display) { ShowsIs(out, display); }
    if exists out <- was :: Shows(out, display) {
      RedisplayedRedraws(was, display, data, metadata);
      CapturesSets(st, id, Redisplayed(was, display, data, metadata), st.models[id].clearPending);
    } else {
      AllRedrawnNothing(was, display, data, metadata);
    }
  }

  lemma CapturesOthers(st: Store, id: Id, outputs: seq<Value>, clearPending: bool, x: Id)
    requires id in st.models && x != id
    ensures var st2 := WidgetStore.Captures(st, id, outputs, clearPending);
            && (x in st2.models <==> x in st.models) && (x in st.models ==> st2.models[x] == st.models[x])
            && (x in st2.waiting <==> x in st.waiting)
  {
  }

  lemma DisplayOthers(st: Store, id: Id, display: string, data: Value, metadata: Value, x: Id)
    requires x != id || !IsOutput(st, id)
    ensures var st2 := UpdateDisplayOf(st, id, display, data, metadata);
            && (x in st2.models <==> x in st.models) && (x in st.models ==> st2.models[x] == st.models[x])
            && (x in st2.waiting <==> x in st.waiting)
  {
    if IsOutput(st, id) {
      CapturesOthers(st, id, Redisplayed(OutputsOf(st.models[id]), display, data, metadata), st.models[id].clearPending, x);
    }
  }

  lemma {:induction false} DisplayUntouched(st: Store, order: seq<Id>, display: string, data: Value, metadata: Value, x: Id)
    requires x !in order || !IsOutput(st, x)
    ensures var st2 := UpdateDisplay(st, order, display, data, metadata);
            && (x in st2.models <==> x in st.models) && (x in st.models ==> st2.models[x] == st.models[x])
            && (x in st2.waiting <==> x in st.waiting)
    decreases |order|
  {
    if order != [] {
      assert x == order[0] ==> x in order;
      DisplayOthers(st, order[0], display, data, metadata, x);
      DisplayUntouched(UpdateDisplayOf(st, order[0], display, data, metadata), order[1..], display, data, metadata, x);
    }
  }

  lemma TakenLater(st: Store, st1: Store, st2: Store, x: Id, display: string, data: Value, metadata: Value)
    requires x in st.models && DisplayTaken(st, st1, x, display, data, metadata)
    requires x in st2.models && st2.models[x] == st1.models[x] && (x in st2.waiting <==> x in st1.waiting)
    ensures DisplayTaken(st, st2, x, display, data, metadata)
  {
  }

  lemma TakenAfter(st: Store, st1: Store, st2: Store, x: Id, display: string, data: Value, metadata: Value)
    requires x in st.models && x in st1.models && DisplayTaken(st1, st2, x, display, data, metadata)
    requires st1.models[x] == st.models[x] && (x in st1.waiting <==> x in st.waiting)
    ensures DisplayTaken(st, st2, x, display, data, metadata)
  {
  }

  /** update_display: every connected Output widget has each output that shows the display redrawn
      and waits if it has one; no other output, attribute, buffer or model changes. */
  lemma {:induction false} DisplayRedrawn(st: Store, order: seq<Id>, display: string, data: Value, metadata: Value, x: Id)
    requires x in st.models && NoRepeats(order)
    ensures var st2 := UpdateDisplay(st, order, display, data, metadata);
            && x in st2.models
            && if x in order && IsOutput(st, x) then DisplayTaken(st, st2, x, display, data, metadata)
               else st2.models[x] == st.models[x] && (x in st2.waiting <==> x in st.waiting)
    decreases |order|
  {
    if x !in order || !IsOutput(st, x) {
      DisplayUntouched(st, order, display, data, metadata, x);
    } else {
      var st1 := UpdateDisplayOf(st, order[0], display, data, metadata);
      var st2 := UpdateDisplay(st1, order[1..], display, data, metadata);
      if x == order[0] {
        DisplayTakenOne(st, x, display, data, metadata);
        assert x !in order[1..];
        DisplayUntouched(st1, order[1..], display, data, metadata, x);
        TakenLater(st, st1, st2, x, display, data, metadata);
      } else {
        DisplayOthers(st, order[0], display, data, metadata, x);
        DisplayRedrawn(st1, order[1..], display, data, metadata, x);
        TakenAfter(st, st1, st2, x, display, data, metadata);
      }
    }
  }
}
