/** The rest of the store's steps: releasing, pacing, links, captures and the kernel's messages. */
module WidgetFlow {
  import opened Json
  import opened Attributes
  import opened WidgetStore
  import opened WidgetInvariants
  import opened WidgetSteps

  // ---- release ----

  /** The update in flight is over, and what is held is taken out to be sent. */
  function LetGo(st: Store, id: Id, ours: set<MsgId>): Store
    requires id in st.models && st.models[id].inflight.Some?
  {
    var m := st.models[id];
    st.(models := st.models[id := m.(inflight := None, pending := map[], pendingCell := None)],
        inflight := st.inflight - {m.inflight.value.id}, ours := ours)
  }

  lemma LetGoRep(st: Store, slack: set<Id>, id: Id, ours: set<MsgId>)
    requires Rep(st, slack) && IsLive(st, id) && st.models[id].inflight.Some?
    requires st.ours - {st.models[id].inflight.value.id} <= ours <= st.ours
    ensures Rep(LetGo(st, id, ours), slack)
  {
    var m := st.models[id];
    assert ModelOk(m) && OneEach(m);
    TrafficStep(st, LetGo(st, id, ours), id, {m.inflight.value.id}, false);
    assert ModelOk(m.(inflight := None, pending := map[], pendingCell := None)) by {
      forall k | k in m.attrs ensures SlotOk(m.(inflight := None, pending := map[], pendingCell := None), k) {
        assert SlotOk(m, k);
      }
    }
    RepStep(st, LetGo(st, id, ours), slack, slack, id);
  }

  lemma LetGoSync(w: World, st: Store, id: Id, ours: set<MsgId>)
    requires Ids(w, st) && TimersOk(w, st) && IsLive(st, id) && st.models[id].inflight.Some?
    ensures Ids(w, LetGo(st, id, ours)) && TimersOk(w, LetGo(st, id, ours))
  {
    var st2 := LetGo(st, id, ours);
    IdsStep(w, st, st2, id);
    TimersStep(w, st, st2, id);
  }

  lemma LetGoMirror(w: World, st: Store, id: Id, ours: set<MsgId>)
    requires Mirror(w, st, Nothing) && IsLive(st, id) && st.models[id].inflight.Some?
    ensures Mirror(w, LetGo(st, id, ours), Hand(id, st.models[id].pending))
  {
    DirtyKeepsMirror(w, st, Nothing, LetGo(st, id, ours), Hand(id, st.models[id].pending), id, map[]);
  }

  lemma HandedSum(st: Store, st2: Store, id: Id, x: Id)
    requires SumOk(st, Nothing, x) && OneChanged(st, st2, id) && st2.log == st.log
    requires st2.models[id].live == st.models[id].live && st2.models[id].pending == map[]
    ensures SumOk(st2, Hand(id, st.models[id].pending), x)
  {
    if x == id {
      var sum := SentSum(st.log, id);
      assert sum + map[] == sum && sum + st.models[id].pending + map[] == sum + st.models[id].pending;
    }
  }

  lemma LetGoLog(now: Time, st: Store, id: Id, ours: set<MsgId>)
    requires LogOk(now, st, Nothing) && IsLive(st, id) && st.models[id].inflight.Some?
    ensures LogOk(now, LetGo(st, id, ours), Hand(id, st.models[id].pending))
  {
    var st2, hand2 := LetGo(st, id, ours), Hand(id, st.models[id].pending);
    forall x ensures SumOk(st2, hand2, x) {
      assert SumOk(st, Nothing, x);
      HandedSum(st, st2, id, x);
    }
    forall x | IsLive(st2, x) ensures SentBy(st2.log, x, st2.models[x].outSentAt) {
      assert SentBy(st.log, x, st.models[x].outSentAt);
    }
  }

  lemma LetGoGood(w: World, st: Store, slack: set<Id>, id: Id, ours: set<MsgId>)
    requires Good(w, st, Nothing, slack) && IsLive(st, id) && st.models[id].inflight.Some?
    requires st.ours - {st.models[id].inflight.value.id} <= ours <= st.ours
    ensures Good(w, LetGo(st, id, ours), Hand(id, st.models[id].pending), slack)
  {
    LetGoRep(st, slack, id, ours);
    LetGoSync(w, st, id, ours);
    LetGoMirror(w, st, id, ours);
    LetGoLog(w.now, st, id, ours);
  }

  lemma EmptyHand(w: World, st: Store, id: Id, slack: set<Id>)
    requires Good(w, st, Hand(id, map[]), slack)
    ensures Good(w, st, Nothing, slack)
  {
    forall x, key ensures InStep(w, st, Nothing, x, key) {
      assert InStep(w, st, Hand(id, map[]), x, key);
    }
    forall x ensures SumOk(st, Nothing, x) {
      assert SumOk(st, Hand(id, map[]), x);
    }
  }

  /** `msg` is the update in flight of `id`, over by its idle (no longer ours) or by its timer. */
  lemma ReleaseIs(st: Store, id: Id, msg: MsgId, ours: set<MsgId>, e: Env)
    requires id in st.models && st.models[id].inflight.Some? && st.models[id].inflight.value.id == msg
    requires ModelOk(st.models[id])
    ensures Release(st.(ours := ours), id, msg, e) ==
            if st.models[id].pending == map[] then LetGo(st, id, ours)
            else SendUpdate(LetGo(st, id, ours), id, st.models[id].pending, st.models[id].pendingCell, e)
  {
    var m := st.models[id];
    assert st.inflight - {msg} - {msg} == st.inflight - {msg};
    if m.pending == map[] {
      assert m.(inflight := None) == m.(inflight := None, pending := map[], pendingCell := None);
    }
  }

  lemma ReleaseCurrentGood(w: World, st: Store, slack: set<Id>, id: Id, msg: MsgId, ours: set<MsgId>, e: Env)
    requires Good(w, st, Nothing, slack) && e.now == w.now
    requires id in st.models && st.models[id].inflight.Some? && st.models[id].inflight.value.id == msg
    requires st.ours - {msg} <= ours <= st.ours
    ensures Good(w, Release(st.(ours := ours), id, msg, e), Nothing, slack)
  {
    assert ModelOk(st.models[id]);
    ReleaseIs(st, id, msg, ours, e);
    LetGoGood(w, st, slack, id, ours);
    var hand := Hand(id, st.models[id].pending);
    if hand.attrs == map[] {
      EmptyHand(w, LetGo(st, id, ours), id, slack);
    } else {
      SendUpdateGood(w, LetGo(st, id, ours), hand, slack, st.models[id].pendingCell, e);
    }
  }

  lemma ReleaseGood(w: World, st: Store, slack: set<Id>, id: Id, msg: MsgId, e: Env)
    requires Good(w, st, Nothing, slack) && e.now == w.now && ForUpdate(st, id, msg)
    ensures Good(w, Release(st, id, msg, e), Nothing, slack)
  {
    if id in st.models && st.models[id].inflight.Some? && st.models[id].inflight.value.id == msg {
      assert st.(ours := st.ours) == st;
      ReleaseCurrentGood(w, st, slack, id, msg, st.ours, e);
    } else {
      assert msg !in st.inflight;
      assert st.inflight - {msg} == st.inflight;
    }
  }

  // ---- pacing ----

  lemma Unslack(w: World, st: Store, hand: Hand, slack: set<Id>, id: Id)
    requires Good(w, st, hand, slack)
    requires id in st.waiting ==> id in st.models && (st.models[id].outInflight.Some? || st.models[id].flushScheduled)
    ensures Good(w, st, hand, slack - {id})
  {
  }

  lemma ArmRep(st: Store, slack: set<Id>, id: Id, delay: Time)
    requires Rep(st, slack) && IsLive(st, id)
    ensures Rep(Arm(st, id, delay), slack - {id})
  {
    var m := st.models[id];
    assert ModelOk(m) && OneEach(m);
    assert st.inflight - {} == st.inflight;
    TrafficStep(st, Arm(st, id, delay), id, {}, false);
    assert ModelOk(m.(flushScheduled := true)) by {
      forall k | k in m.attrs ensures SlotOk(m.(flushScheduled := true), k) { assert SlotOk(m, k); }
    }
    RepStep(st, Arm(st, id, delay), slack, slack - {id}, id);
  }

  /** Only the timer flag of a model and the effects changed; no message went out. */
  lemma PacingKeeps(w: World, st: Store, st2: Store, hand: Hand, id: Id)
    requires Ids(w, st) && Mirror(w, st, hand) && LogOk(w.now, st, hand) && OneChanged(st, st2, id)
    requires Wire(w, st2) == Wire(w, st) && st2.next == st.next && st2.log == st.log && st2.waiting == st.waiting
    requires exists f, o :: st2.models[id] == st.models[id].(flushScheduled := f, outInflight := o)
    ensures Ids(w, st2) && Mirror(w, st2, hand) && LogOk(w.now, st2, hand)
  {
    IdsStep(w, st, st2, id);
    DirtyKeepsMirror(w, st, hand, st2, hand, id, map[]);
    forall x ensures SumOk(st2, hand, x) { assert SumOk(st, hand, x); }
    forall x | IsLive(st2, x) ensures SentBy(st2.log, x, st2.models[x].outSentAt) {
      assert SentBy(st.log, x, st.models[x].outSentAt);
    }
  }

  lemma ArmArms(w: World, st: Store, id: Id, delay: Time)
    requires id in st.models
    ensures var st2 := Arm(st, id, delay);
            Armed(w, st2) == Armed(w, st) + multiset{FlushTimer(id)} && Wire(w, st2) == Wire(w, st)
  {
    var arm := FlushOutputsAfter(id, delay);
    SendsSnoc(st.fx, arm);
    assert [arm][..0] == [];
    assert TimersOf([arm]) == multiset{FlushTimer(id)};
  }

  lemma ArmGood(w: World, st: Store, hand: Hand, slack: set<Id>, id: Id, delay: Time)
    requires Good(w, st, hand, slack) && IsLive(st, id)
    ensures Good(w, Arm(st, id, delay), hand, slack - {id})
  {
    var m, st2 := st.models[id], Arm(st, id, delay);
    ArmRep(st, slack, id, delay);
    ArmArms(w, st, id, delay);
    assert st2.models[id] == m.(flushScheduled := true, outInflight := m.outInflight);
    PacingKeeps(w, st, st2, hand, id);
    ArmTimers(w, st, st2, id);
    HandKept(st, st2, hand, id);
  }

  lemma HandKept(st: Store, st2: Store, hand: Hand, id: Id)
    requires OneChanged(st, st2, id)
    requires st2.models[id].live == st.models[id].live && st2.models[id].pending == st.models[id].pending
             && st2.models[id].pendingCell == st.models[id].pendingCell
    requires hand.Hand? ==> IsLive(st, hand.id) && st.models[hand.id].pending == map[] && st.models[hand.id].pendingCell.None?
    ensures hand.Hand? ==> IsLive(st2, hand.id) && st2.models[hand.id].pending == map[] && st2.models[hand.id].pendingCell.None?
  {
  }

  lemma ArmTimers(w: World, st: Store, st2: Store, id: Id)
    requires TimersOk(w, st) && OneChanged(st, st2, id) && st2.inflight == st.inflight && st2.next == st.next
    requires Armed(w, st2) == Armed(w, st) + multiset{FlushTimer(id)}
    requires st2.models[id].outInflight == st.models[id].outInflight
    ensures TimersOk(w, st2)
  {
    forall x: Id, msg: MsgId | CheckTimer(x, msg) in Armed(w, st2)
      ensures msg < st2.next && ForUpdate(st2, x, msg)
    {
      assert CheckTimer(x, msg) in Armed(w, st);
      assert ForUpdate(st, x, msg);
    }
  }

  lemma PacedSendGood(w: World, st: Store, hand: Hand, slack: set<Id>, id: Id)
    requires Good(w, st, hand, slack) && CanGo(st, id)
    requires PacedNow(st.models[id], w.now)
    ensures Good(w, SendOutputs(st, id, w.now, true), hand, slack - {id})
  {
    SendOutputsGood(w, st, hand, slack, id, true);
    Unslack(w, SendOutputs(st, id, w.now, true), hand, slack, id);
  }

  lemma PacedFlushIs(st: Store, id: Id, now: Time)
    ensures PacedFlush(st, id, now) ==
            if !CanGo(st, id) then st
            else if PacedNow(st.models[id], now) then SendOutputs(st, id, now, true)
            else PacedWait(st, id, now)
  {
  }

  predicate PacedNow(m: Model, now: Time) {
    m.outSentAt.Some? ==> m.outSentAt.value + OUTPUT_FLUSH <= now
  }

  function PacedWait(st: Store, id: Id, now: Time): Store
    requires id in st.models && !PacedNow(st.models[id], now)
  {
    if st.models[id].flushScheduled then st
    else Arm(st, id, OUTPUT_FLUSH - Since(now, st.models[id].outSentAt.value))
  }

  lemma PacedWaitGood(w: World, st: Store, hand: Hand, slack: set<Id>, id: Id)
    requires Good(w, st, hand, slack) && CanGo(st, id) && !PacedNow(st.models[id], w.now)
    ensures Good(w, PacedWait(st, id, w.now), hand, slack - {id})
  {
    if st.models[id].flushScheduled {
      Unslack(w, st, hand, slack, id);
    } else {
      assert IsOutput(st, id);
      ArmGood(w, st, hand, slack, id, OUTPUT_FLUSH - Since(w.now, st.models[id].outSentAt.value));
    }
  }

  lemma PacedFlushGood(w: World, st: Store, hand: Hand, slack: set<Id>, id: Id)
    requires Good(w, st, hand, slack)
    ensures Good(w, PacedFlush(st, id, w.now), hand, slack - {id})
  {
    PacedFlushIs(st, id, w.now);
    if !CanGo(st, id) {
      Unslack(w, st, hand, slack, id);
    } else if PacedNow(st.models[id], w.now) {
      PacedSendGood(w, st, hand, slack, id);
    } else {
      PacedWaitGood(w, st, hand, slack, id);
    }
  }

  /** The flush in flight ended, or the timer fired: what waits is to be paced anew. */
  function Unpaced(st: Store, id: Id, fired: bool, msg: MsgId): Store
    requires id in st.models
  {
    var m := st.models[id];
    if fired then st.(models := st.models[id := m.(flushScheduled := false)])
    else st.(models := st.models[id := m.(outInflight := None)], inflight := st.inflight - {msg}, ours := st.ours - {msg})
  }

  lemma UnpacedTraffic(st: Store, id: Id, fired: bool, msg: MsgId)
    requires Traffic(st) && id in st.models && (!fired ==> st.models[id].outInflight == Some(msg))
    ensures Traffic(Unpaced(st, id, fired, msg))
  {
    assert OneEach(st.models[id]);
    assert st.inflight - {} == st.inflight;
    TrafficStep(st, Unpaced(st, id, fired, msg), id, if fired then {} else {msg}, false);
  }

  lemma PacedModelOk(m: Model, m2: Model)
    requires ModelOk(m) && m2 == m.(flushScheduled := m2.flushScheduled, outInflight := m2.outInflight)
    requires (m2.flushScheduled ==> m.flushScheduled) && (m2.outInflight.Some? ==> m2.outInflight == m.outInflight)
    ensures ModelOk(m2)
  {
    forall k | k in m.attrs ensures SlotOk(m2, k) { assert SlotOk(m, k); }
  }

  lemma UnpacedRep(st: Store, id: Id, fired: bool, msg: MsgId)
    requires Rep(st, {}) && id in st.models && (!fired ==> st.models[id].outInflight == Some(msg))
    ensures Rep(Unpaced(st, id, fired, msg), {id})
  {
    var st2 := Unpaced(st, id, fired, msg);
    assert ModelOk(st.models[id]);
    UnpacedTraffic(st, id, fired, msg);
    PacedModelOk(st.models[id], st2.models[id]);
    RepStep(st, st2, {}, {id}, id);
  }

  /** `w2` is `w` without the timer that fired. */
  lemma UnpacedGood(w: World, w2: World, st: Store, id: Id, fired: bool, msg: MsgId)
    requires Good(w, st, Nothing, {}) && id in st.models && (!fired ==> st.models[id].outInflight == Some(msg))
    requires w2 == if fired then w.(timers := w.timers - multiset{FlushTimer(id)}) else w
    ensures Good(w2, Unpaced(st, id, fired, msg), Nothing, {id})
  {
    UnpacedRep(st, id, fired, msg);
    UnpacedTimersOk(w, w2, st, id, fired, msg);
    UnpacedRest(w, w2, st, id, fired, msg);
  }

  lemma UnpacedTimersOk(w: World, w2: World, st: Store, id: Id, fired: bool, msg: MsgId)
    requires TimersOk(w, st) && id in st.models
    requires w2 == if fired then w.(timers := w.timers - multiset{FlushTimer(id)}) else w
    ensures TimersOk(w2, Unpaced(st, id, fired, msg))
  {
    UnpacedTimers(w, w2, st, Unpaced(st, id, fired, msg), id, fired);
  }

  lemma UnpacedRest(w: World, w2: World, st: Store, id: Id, fired: bool, msg: MsgId)
    requires Ids(w, st) && Mirror(w, st, Nothing) && LogOk(w.now, st, Nothing) && id in st.models
    requires w2 == w.(timers := w2.timers)
    ensures var st2 := Unpaced(st, id, fired, msg);
            Ids(w2, st2) && Mirror(w2, st2, Nothing) && LogOk(w.now, st2, Nothing)
  {
    var m, st2 := st.models[id], Unpaced(st, id, fired, msg);
    assert st2.models[id] == m.(flushScheduled := m.flushScheduled && !fired, outInflight := if fired then m.outInflight else None);
    PacingKeeps(w, st, st2, Nothing, id);
    SameEvents(w, w2, st2);
  }

  lemma UnpacedTimers(w: World, w2: World, st: Store, st2: Store, id: Id, fired: bool)
    requires TimersOk(w, st) && OneChanged(st, st2, id) && st2.next == st.next && st2.fx == st.fx
    requires st2.inflight.Keys <= st.inflight.Keys && (forall m <- st2.inflight :: st2.inflight[m] == st.inflight[m])
    requires st2.models[id].outInflight.Some? ==> st2.models[id].outInflight == st.models[id].outInflight
    requires st2.models[id].flushScheduled ==> st.models[id].flushScheduled && !fired
    requires w2 == if fired then w.(timers := w.timers - multiset{FlushTimer(id)}) else w
    ensures TimersOk(w2, st2)
  {
    forall x: Id, msg: MsgId | CheckTimer(x, msg) in Armed(w2, st2)
      ensures msg < st2.next && ForUpdate(st2, x, msg)
    {
      assert CheckTimer(x, msg) in Armed(w, st);
      assert ForUpdate(st, x, msg);
    }
    forall x | x in st2.models && st2.models[x].flushScheduled ensures FlushTimer(x) in Armed(w2, st2) {
      assert FlushTimer(x) in Armed(w, st);
    }
  }

  /** The timers matter only to TimersOk. */
  lemma SameEvents(w: World, w2: World, st: Store)
    requires Ids(w, st) && Mirror(w, st, Nothing) && w2 == w.(timers := w2.timers)
    ensures Ids(w2, st) && Mirror(w2, st, Nothing)
  {
    forall id | id in w2.kernel ensures KernelOk(w2, st, id) { assert KernelOk(w, st, id); }
    forall id, key ensures InStep(w2, st, Nothing, id, key) { assert InStep(w, st, Nothing, id, key); }
  }

  lemma FlushOutputsGood(w: World, st: Store, id: Id)
    requires Good(w, st, Nothing, {})
    ensures Good(w.(timers := w.timers - multiset{FlushTimer(id)}), FlushOutputs(st, id, w.now), Nothing, {})
  {
    var w2 := w.(timers := w.timers - multiset{FlushTimer(id)});
    if id in st.models {
      UnpacedGood(w, w2, st, id, true, 0);
      PacedFlushGood(w2, Unpaced(st, id, true, 0), Nothing, {id}, id);
    } else {
      SameEvents(w, w2, st);
      FewerTimers(w, w2, st, id);
    }
  }

  lemma FewerTimers(w: World, w2: World, st: Store, id: Id)
    requires TimersOk(w, st) && id !in st.models && w2 == w.(timers := w.timers - multiset{FlushTimer(id)})
    ensures TimersOk(w2, st)
  {
    forall x: Id, msg: MsgId | CheckTimer(x, msg) in Armed(w2, st) ensures msg < st.next && ForUpdate(st, x, msg) {
      assert CheckTimer(x, msg) in Armed(w, st);
    }
    forall x | x in st.models && st.models[x].flushScheduled ensures FlushTimer(x) in Armed(w2, st) {
      assert FlushTimer(x) in Armed(w, st);
    }
  }

  // ---- on_idle ----

  /** The mirror and the identities do not read which ids are ours. */
  lemma OursKeeps(w: World, st: Store, ours: set<MsgId>)
    requires Ids(w, st) && Mirror(w, st, Nothing) && LogOk(w.now, st, Nothing)
    ensures var st2 := st.(ours := ours); Ids(w, st2) && Mirror(w, st2, Nothing) && LogOk(w.now, st2, Nothing)
  {
    var st2 := st.(ours := ours);
    forall x, key ensures InStep(w, st2, Nothing, x, key) { assert InStep(w, st, Nothing, x, key); }
    forall x ensures SumOk(st2, Nothing, x) { assert SumOk(st, Nothing, x); }
    forall id | id in w.kernel ensures KernelOk(w, st2, id) { assert KernelOk(w, st, id); }
  }

  lemma FewerOursRep(st: Store, parent: MsgId)
    requires Rep(st, {}) && parent !in st.inflight
    ensures Rep(st.(ours := st.ours - {parent}), {})
  {
    var st2 := st.(ours := st.ours - {parent});
    assert Traffic(st2);
    assert forall id :: IsOutput(st, id) <==> IsOutput(st2, id);
  }

  lemma FewerOurs(w: World, st: Store, parent: MsgId)
    requires Good(w, st, Nothing, {}) && parent !in st.inflight
    ensures Good(w, st.(ours := st.ours - {parent}), Nothing, {})
  {
    FewerOursRep(st, parent);
    OursKeeps(w, st, st.ours - {parent});
    forall x: Id, msg: MsgId | CheckTimer(x, msg) in Armed(w, st) ensures ForUpdate(st.(ours := st.ours - {parent}), x, msg) {
      assert ForUpdate(st, x, msg);
    }
  }

  lemma OnIdleGood(w: World, st: Store, parent: MsgId, e: Env)
    requires Good(w, st, Nothing, {}) && e.now == w.now
    ensures Good(w, OnIdle(st, parent, e), Nothing, {})
  {
    if parent !in st.inflight {
      FewerOurs(w, st, parent);
    } else {
      var id := st.inflight[parent];
      assert Awaits(st.models[id], parent);
      if st.models[id].outInflight == Some(parent) {
        UnpacedGood(w, w, st, id, false, parent);
        PacedFlushGood(w, Unpaced(st, id, false, parent), Nothing, {id}, id);
      } else {
        ReleaseCurrentGood(w, st, {}, id, parent, st.ours - {parent}, e);
      }
    }
  }
}
