/** Every small step of the store keeps what WidgetInvariants states. */
module WidgetSteps {
  import opened Json
  import opened Attributes
  import opened WidgetStore
  import opened WidgetInvariants

  // ---- folding the kernel's messages ----

  lemma {:induction false} FoldSnoc(events: seq<Event>, ev: Event, v: View, id: Id, key: string, isOut: bool)
    ensures Fold(events + [ev], v, id, key, isOut) == Step(Fold(events, v, id, key, isOut), ev, id, key, isOut)
    decreases |events|
  {
    if events == [] {
      assert ([ev])[1..] == [];
    } else {
      assert (events + [ev])[1..] == events[1..] + [ev];
      FoldSnoc(events[1..], ev, Step(v, events[0], id, key, isOut), id, key, isOut);
    }
  }

  lemma {:induction false} FoldKeepsLive(events: seq<Event>, v1: View, v2: View, id: Id, key: string, isOut: bool)
    requires v1.live == v2.live
    ensures Fold(events, v1, id, key, isOut).live == Fold(events, v2, id, key, isOut).live
    decreases |events|
  {
    if events != [] {
      FoldKeepsLive(events[1..], Step(v1, events[0], id, key, isOut), Step(v2, events[0], id, key, isOut), id, key, isOut);
    }
  }

  lemma {:induction false} FoldKeepsExp(events: seq<Event>, v1: View, v2: View, id: Id, key: string, isOut: bool)
    requires v1.live == v2.live && v1.exp == v2.exp
    ensures Fold(events, v1, id, key, isOut).exp == Fold(events, v2, id, key, isOut).exp
    decreases |events|
  {
    if events != [] {
      FoldKeepsExp(events[1..], Step(v1, events[0], id, key, isOut), Step(v2, events[0], id, key, isOut), id, key, isOut);
    }
  }

  lemma {:induction false} FoldKeepsFresh(events: seq<Event>, v: View, id: Id, key: string, isOut: bool)
    requires v.live && v.exp.Some? && Quiet(events, id)
    requires forall ev <- events | ev.Echo? :: ev.parent != v.exp
    ensures Fold(events, v, id, key, isOut).exp == v.exp
    decreases |events|
  {
    if events != [] {
      assert events[0] in events;
      FoldKeepsFresh(events[1..], Step(v, events[0], id, key, isOut), id, key, isOut);
    }
  }

  lemma LastCarrierSnoc(wire: seq<Outgoing>, m: Outgoing, id: Id, key: string)
    ensures LastCarrier(wire + [m], id, key) == if Carries(m, id, key) then Some(m.id) else LastCarrier(wire, id, key)
  {
    assert (wire + [m])[..|wire|] == wire;
  }

  // ---- the wire grows ----

  /** `st2` is `st` with the message `m`, the next id, on its way; only the model it is for changed. */
  ghost predicate Sent(w: World, st: Store, st2: Store, m: Outgoing) {
    && m.id == st.next && st2.next == st.next + 1 && st2.ours == st.ours + {m.id}
    && Wire(w, st2) == Wire(w, st) + [m]
    && (forall x | x != m.comm :: (x in st2.models <==> x in st.models) && (x in st.models ==> st2.models[x] == st.models[x]))
    && m.comm in st.models && m.comm in st2.models
    && st2.models[m.comm].live == st.models[m.comm].live && st2.models[m.comm].name == st.models[m.comm].name
  }

  lemma SentKeepsIds(w: World, st: Store, st2: Store, m: Outgoing)
    requires Ids(w, st) && Sent(w, st, st2, m)
    requires m.comm in w.known
    requires forall item <- st2.log :: item in st.log || item.model == m.comm
    requires IsLive(st, m.comm)
    ensures Ids(w, st2)
  {
    assert forall x :: IsLive(st2, x) <==> IsLive(st, x);
    forall i | 0 <= i < |w.fromKernel| && w.fromKernel[i].Open?
      ensures Unlogged(st2.log, w.fromKernel[i].id)
    {
      assert !IsLive(st, w.fromKernel[i].id);
    }
    forall id | id in w.kernel ensures KernelOk(w, st2, id) {
      assert KernelOk(w, st, id);
    }
  }

  /** The attributes a sent update carries are expected back, and every other attribute is as it was. */
  lemma SentKeepsMirror(w: World, st: Store, hand: Hand, st2: Store, hand2: Hand, m: Outgoing)
    requires Ids(w, st) && Mirror(w, st, hand) && Sent(w, st, st2, m) && IsLive(st, m.comm) && m.body.Update?
    requires st2.models[m.comm].attrs == st.models[m.comm].attrs
    requires st2.models[m.comm].expected == st.models[m.comm].expected + map k <- m.body.attrs :: m.id
    requires st2.models[m.comm].pending == st.models[m.comm].pending
    requires forall id, key, isOut ::
               Dirty(st, hand, id, key, isOut) && !(id == m.comm && key in m.body.attrs) ==> Dirty(st2, hand2, id, key, isOut)
    ensures Mirror(w, st2, hand2)
  {
    forall id, key ensures InStep(w, st2, hand2, id, key) {
      assert InStep(w, st, hand, id, key);
      LastCarrierSnoc(Wire(w, st), m, id, key);
      var isOut := IsOut(w, id);
      var v, v2 := ViewOf(st, id, key), ViewOf(st2, id, key);
      FoldKeepsLive(w.fromKernel, v, v2, id, key, isOut);
      if id == m.comm && key in m.body.attrs {
        if id in w.kernel {
          KernelQuiet(w, st, id);
          FoldKeepsFresh(w.fromKernel, v2, id, key, isOut);
        }
      } else {
        assert v2 == v;
      }
    }
  }

  /** Nothing more opens or closes a model both sides have. */
  lemma KernelQuiet(w: World, st: Store, id: Id)
    requires Ids(w, st) && id in w.kernel && IsLive(st, id)
    ensures Quiet(w.fromKernel, id)
  {
    assert KernelOk(w, st, id);
    forall ev | ev in w.fromKernel ensures !IsOpenOf(ev, id) {
      var i :| 0 <= i < |w.fromKernel| && w.fromKernel[i] == ev;
      assert w.fromKernel[i].Open? ==> !IsLive(st, w.fromKernel[i].id);
    }
  }

  // ---- a step that changes one model ----

  predicate OneChanged(st: Store, st2: Store, id: Id) {
    && id in st.models && st2.models.Keys == st.models.Keys
    && forall x <- st.models :: x != id ==> st2.models[x] == st.models[x]
  }

  /** The model stops waiting for `ended`, and waits for the next id when `starts`. */
  ghost predicate Rerouted(st: Store, st2: Store, id: Id, ended: set<MsgId>, starts: bool) {
    && OneChanged(st, st2, id)
    && (forall msg <- ended :: Awaits(st.models[id], msg))
    && (forall msg: MsgId :: Awaits(st2.models[id], msg) <==>
                             (starts && msg == st.next) || (Awaits(st.models[id], msg) && msg !in ended))
    && OneEach(st2.models[id])
    && st2.inflight == (if starts then (st.inflight - ended)[st.next := id] else st.inflight - ended)
    && (if starts then st2.next == st.next + 1 && st2.ours == st.ours + {st.next}
        else st2.next == st.next && st.ours - ended <= st2.ours <= st.ours)
  }

  lemma ReroutedAwaited(st: Store, st2: Store, id: Id, ended: set<MsgId>, starts: bool, x: Id, msg: MsgId)
    requires Traffic(st) && Rerouted(st, st2, id, ended, starts)
    requires x in st2.models && Awaits(st2.models[x], msg)
    ensures msg in st2.inflight && st2.inflight[msg] == x
  {
    if !(x == id && starts && msg == st.next) {
      assert Awaits(st.models[x], msg);
      assert msg in st.inflight && msg in st.ours;
    }
  }

  lemma ReroutedWaits(st: Store, st2: Store, id: Id, ended: set<MsgId>, starts: bool, msg: MsgId)
    requires Traffic(st) && Rerouted(st, st2, id, ended, starts)
    requires msg in st2.inflight
    ensures st2.inflight[msg] in st2.models && Awaits(st2.models[st2.inflight[msg]], msg)
  {
    if !(starts && msg == st.next) { assert Awaits(st.models[st.inflight[msg]], msg); }
  }

  lemma ReroutedOurs(st: Store, st2: Store, id: Id, ended: set<MsgId>, starts: bool)
    requires Traffic(st) && Rerouted(st, st2, id, ended, starts)
    ensures st2.inflight.Keys <= st2.ours && forall msg <- st2.ours :: msg < st2.next
  {
  }

  lemma ReroutedEach(st: Store, st2: Store, id: Id, ended: set<MsgId>, starts: bool)
    requires Traffic(st) && Rerouted(st, st2, id, ended, starts)
    ensures forall x <- st2.models :: OneEach(st2.models[x])
  {
    forall x | x in st2.models ensures OneEach(st2.models[x]) { assert x != id ==> OneEach(st.models[x]); }
  }

  lemma ReroutedAll(st: Store, st2: Store, id: Id, ended: set<MsgId>, starts: bool)
    requires Traffic(st) && Rerouted(st, st2, id, ended, starts)
    ensures forall x, msg | x in st2.models && Awaits(st2.models[x], msg) :: msg in st2.inflight && st2.inflight[msg] == x
    ensures forall msg <- st2.inflight :: st2.inflight[msg] in st2.models && Awaits(st2.models[st2.inflight[msg]], msg)
  {
    forall x, msg | x in st2.models && Awaits(st2.models[x], msg)
      ensures msg in st2.inflight && st2.inflight[msg] == x
    {
      ReroutedAwaited(st, st2, id, ended, starts, x, msg);
    }
    forall msg | msg in st2.inflight
      ensures st2.inflight[msg] in st2.models && Awaits(st2.models[st2.inflight[msg]], msg)
    {
      ReroutedWaits(st, st2, id, ended, starts, msg);
    }
  }

  lemma TrafficStep(st: Store, st2: Store, id: Id, ended: set<MsgId>, starts: bool)
    requires Traffic(st) && Rerouted(st, st2, id, ended, starts)
    ensures Traffic(st2)
  {
    ReroutedOurs(st, st2, id, ended, starts);
    ReroutedEach(st, st2, id, ended, starts);
    ReroutedAll(st, st2, id, ended, starts);
  }

  lemma RepStep(st: Store, st2: Store, slack: set<Id>, slack2: set<Id>, id: Id)
    requires Rep(st, slack) && Traffic(st2) && OneChanged(st, st2, id)
    requires st2.capture == st.capture && st2.links == st.links && st2.linkIndex == st.linkIndex
    requires ModelOk(st2.models[id])
    requires st2.models[id].live == st.models[id].live && st2.models[id].name == st.models[id].name
    requires st2.waiting <= st.waiting + {id} && slack <= slack2 + {id}
    requires id in st2.waiting ==>
               IsOutput(st2, id) && (id in slack2 || st2.models[id].outInflight.Some? || st2.models[id].flushScheduled)
    ensures Rep(st2, slack2)
  {
    assert forall x :: IsOutput(st, x) ==> IsOutput(st2, x);
    forall x | x in st2.models ensures ModelOk(st2.models[x]) {
      assert ModelOk(st.models[x]);
    }
  }

  // ---- send_outputs ----

  lemma SendOutputsRep(st: Store, slack: set<Id>, id: Id, now: Time, paced: bool)
    requires Rep(st, slack) && CanGo(st, id)
    ensures Rep(SendOutputs(st, id, now, paced), slack)
  {
    var st2 := SendOutputs(st, id, now, paced);
    assert ModelOk(st.models[id]) && IsOutput(st, id);
    NextIsNew(st, id);
    assert st.inflight - {} == st.inflight;
    TrafficStep(st, st2, id, {}, true);
    RepStep(st, st2, slack, slack, id);
  }

  lemma NextIsNew(st: Store, id: Id)
    requires Traffic(st) && id in st.models
    ensures !Awaits(st.models[id], st.next) && OneEach(st.models[id])
  {
    assert st.next !in st.ours;
  }

  lemma SendOutputsTimers(w: World, st: Store, id: Id, now: Time, paced: bool)
    requires TimersOk(w, st) && CanGo(st, id)
    ensures TimersOk(w, SendOutputs(st, id, now, paced))
  {
    var st2 := SendOutputs(st, id, now, paced);
    SendsSnoc(st.fx, st2.fx[|st.fx|]);
    assert Armed(w, st2) == Armed(w, st);
    forall x: Id, msg: MsgId | CheckTimer(x, msg) in Armed(w, st2)
      ensures msg < st2.next && ForUpdate(st2, x, msg)
    {
      assert ForUpdate(st, x, msg);
    }
  }

  lemma SumsSnoc(log: seq<Item>, item: Item, id: Id)
    ensures QueuedSum(log + [item], id) ==
            if item.Queued? && item.model == id then Merge(QueuedSum(log, id), item.update) else QueuedSum(log, id)
    ensures SentSum(log + [item], id) ==
            if item.Updated? && item.model == id then SentSum(log, id) + item.sent else SentSum(log, id)
  {
    assert (log + [item])[..|log|] == log;
  }

  lemma CadenceStep(log: seq<Item>, id: Id, sentAt: Option<Time>, now: Time, paced: bool)
    requires Cadence(log) && SentBy(log, id, sentAt)
    requires paced && sentAt.Some? ==> sentAt.value + OUTPUT_FLUSH <= now
    ensures Cadence(log + [Flushed(id, now, paced)])
  {
    var more := log + [Flushed(id, now, paced)];
    forall i, j | 0 <= i < j < |more| && more[i].Flushed? && more[j].Flushed? && more[i].model == more[j].model && more[j].paced
      ensures more[i].at + OUTPUT_FLUSH <= more[j].at
    {
      assert more[i] == log[i] && log[i] in log;
      if j < |log| { assert more[j] == log[j]; }
    }
  }

  lemma FlushStep(now: Time, st: Store, st2: Store, hand: Hand, id: Id, paced: bool)
    requires LogOk(now, st, hand) && OneChanged(st, st2, id) && IsLive(st, id)
    requires st2.log == st.log + [Flushed(id, now, paced)]
    requires st2.models[id].live && st2.models[id].pending == st.models[id].pending && st2.models[id].outSentAt == Some(now)
    requires paced && st.models[id].outSentAt.Some? ==> st.models[id].outSentAt.value + OUTPUT_FLUSH <= now
    ensures LogOk(now, st2, hand)
  {
    assert SentBy(st.log, id, st.models[id].outSentAt);
    CadenceStep(st.log, id, st.models[id].outSentAt, now, paced);
    forall x ensures SumOk(st2, hand, x) {
      assert SumOk(st, hand, x);
      SumsSnoc(st.log, Flushed(id, now, paced), x);
    }
    forall x | IsLive(st2, x) ensures SentBy(st2.log, x, st2.models[x].outSentAt) {
      assert SentBy(st.log, x, st.models[x].outSentAt);
    }
  }

  lemma SendOutputsLog(now: Time, st: Store, hand: Hand, id: Id, paced: bool)
    requires LogOk(now, st, hand) && CanGo(st, id) && IsLive(st, id)
    requires paced && st.models[id].outSentAt.Some? ==> st.models[id].outSentAt.value + OUTPUT_FLUSH <= now
    ensures LogOk(now, SendOutputs(st, id, now, paced), hand)
  {
    FlushStep(now, st, SendOutputs(st, id, now, paced), hand, id, paced);
  }

  lemma ExpectsOutputs(expected: map<string, MsgId>, m: Model, msg: MsgId)
    ensures expected["outputs" := msg] == expected + map k <- FlushBody(m).attrs :: msg
  {
    assert FlushBody(m).attrs.Keys == {"outputs"};
  }

  lemma SendOutputsSent(w: World, st: Store, id: Id, now: Time, paced: bool)
    requires CanGo(st, id)
    ensures Sent(w, st, SendOutputs(st, id, now, paced), Outgoing(id, st.next, FlushBody(st.models[id]), None))
  {
    SendsSnoc(st.fx, Send(Outgoing(id, st.next, FlushBody(st.models[id]), None)));
  }

  lemma FlushedMirror(w: World, st: Store, hand: Hand, st2: Store, m: Outgoing)
    requires Ids(w, st) && Mirror(w, st, hand) && Sent(w, st, st2, m) && IsLive(st, m.comm)
    requires m.body.Update? && m.body.attrs.Keys == {"outputs"}
    requires st2.models[m.comm].attrs == st.models[m.comm].attrs
    requires st2.models[m.comm].expected == st.models[m.comm].expected + map k <- m.body.attrs :: m.id
    requires st2.models[m.comm].pending == st.models[m.comm].pending
    requires st2.waiting == st.waiting - {m.comm}
    requires forall item <- st2.log :: item in st.log || item.model == m.comm
    ensures Ids(w, st2) && Mirror(w, st2, hand)
  {
    SentKeepsIds(w, st, st2, m);
    SentKeepsMirror(w, st, hand, st2, hand, m);
  }

  lemma SendOutputsMirror(w: World, st: Store, hand: Hand, id: Id, now: Time, paced: bool)
    requires Ids(w, st) && Mirror(w, st, hand) && CanGo(st, id) && IsLive(st, id)
    ensures Ids(w, SendOutputs(st, id, now, paced))
    ensures Mirror(w, SendOutputs(st, id, now, paced), hand)
  {
    SendOutputsSent(w, st, id, now, paced);
    ExpectsOutputs(st.models[id].expected, st.models[id], st.next);
    FlushedMirror(w, st, hand, SendOutputs(st, id, now, paced), Outgoing(id, st.next, FlushBody(st.models[id]), None));
  }

  lemma SendOutputsGood(w: World, st: Store, hand: Hand, slack: set<Id>, id: Id, paced: bool)
    requires Good(w, st, hand, slack)
    requires paced && id in st.models && st.models[id].outSentAt.Some? ==>
               st.models[id].outSentAt.value + OUTPUT_FLUSH <= w.now
    ensures Good(w, SendOutputs(st, id, w.now, paced), hand, slack)
  {
    if CanGo(st, id) {
      assert IsOutput(st, id);
      SendOutputsRep(st, slack, id, w.now, paced);
      SendOutputsTimers(w, st, id, w.now, paced);
      SendOutputsLog(w.now, st, hand, id, paced);
      SendOutputsMirror(w, st, hand, id, w.now, paced);
    }
  }

  lemma {:induction false} FlushAllGood(w: World, st: Store, hand: Hand, slack: set<Id>, order: seq<Id>)
    requires Good(w, st, hand, slack)
    ensures Good(w, FlushAll(st, order, w.now), hand, slack)
    decreases |order|
  {
    if order != [] {
      SendOutputsGood(w, st, hand, slack, order[0], false);
      FlushAllGood(w, SendOutputs(st, order[0], w.now, false), hand, slack, order[1..]);
    }
  }

  // ---- send_update ----

  lemma PutUpdateReroutes(st: Store, id: Id, update: Attrs, cell: Option<string>, now: Time, ended: set<MsgId>)
    requires Traffic(st) && id in st.models
    requires ended == if st.models[id].inflight.Some? then {st.models[id].inflight.value.id} else {}
    ensures Rerouted(st, PutUpdate(st, id, update, cell, now), id, ended, true)
  {
    NextIsNew(st, id);
    if st.models[id].inflight.None? { assert st.inflight - {} == st.inflight; }
  }

  lemma PutUpdateTraffic(st: Store, id: Id, update: Attrs, cell: Option<string>, now: Time)
    requires Traffic(st) && id in st.models
    ensures Traffic(PutUpdate(st, id, update, cell, now))
  {
    var m := st.models[id];
    var ended := if m.inflight.Some? then {m.inflight.value.id} else {};
    PutUpdateReroutes(st, id, update, cell, now, ended);
    TrafficStep(st, PutUpdate(st, id, update, cell, now), id, ended, true);
  }

  lemma PutUpdateRep(st: Store, slack: set<Id>, id: Id, update: Attrs, cell: Option<string>, now: Time)
    requires Rep(st, slack) && IsLive(st, id)
    ensures Rep(PutUpdate(st, id, update, cell, now), slack)
  {
    assert ModelOk(st.models[id]);
    PutUpdateTraffic(st, id, update, cell, now);
    RepStep(st, PutUpdate(st, id, update, cell, now), slack, slack, id);
  }

  lemma PutUpdateTimers(w: World, st: Store, id: Id, update: Attrs, cell: Option<string>, now: Time)
    requires TimersOk(w, st) && Traffic(st) && id in st.models
    ensures TimersOk(w, PutUpdate(st, id, update, cell, now))
  {
    var st2 := PutUpdate(st, id, update, cell, now);
    var send := Send(Outgoing(id, st.next, Update(update), cell));
    var check := CheckInflightAfter(id, st.next, INFLIGHT_TIMEOUT);
    SendsSnoc(st.fx, send);
    SendsSnoc(st.fx + [send], check);
    assert TimersOf([check]) == multiset{CheckTimer(id, st.next)} by { assert [check][..0] == []; }
    assert Armed(w, st2) == Armed(w, st) + multiset{CheckTimer(id, st.next)};
    NextIsNew(st, id);
    forall x: Id, msg: MsgId | CheckTimer(x, msg) in Armed(w, st2)
      ensures msg < st2.next && ForUpdate(st2, x, msg)
    {
      if CheckTimer(x, msg) in Armed(w, st) { assert ForUpdate(st, x, msg); }
    }
  }

  lemma LogStep(now: Time, st: Store, st2: Store, hand: Hand, hand2: Hand, id: Id, item: Item)
    requires LogOk(now, st, hand) && OneChanged(st, st2, id) && st2.log == st.log + [item] && !item.Flushed?
    requires st2.models[id].live == st.models[id].live && st2.models[id].outSentAt == st.models[id].outSentAt
    requires item.model == id && forall x | x != id :: Held(hand, x) == Held(hand2, x)
    requires SumOk(st2, hand2, id)
    ensures LogOk(now, st2, hand2)
  {
    forall x ensures SumOk(st2, hand2, x) {
      assert SumOk(st, hand, x);
      SumsSnoc(st.log, item, x);
    }
    forall x | IsLive(st2, x) ensures SentBy(st2.log, x, st2.models[x].outSentAt) {
      assert SentBy(st.log, x, st.models[x].outSentAt);
    }
  }

  lemma UpdatedSum(st: Store, st2: Store, hand: Hand, id: Id)
    requires hand.Hand? && hand.id == id && IsLive(st, id) && SumOk(st, hand, id) && st.models[id].pending == map[]
    requires id in st2.models && st2.models[id].pending == map[] && st2.log == st.log + [Updated(id, hand.attrs)]
    ensures SumOk(st2, Nothing, id)
  {
    SumsSnoc(st.log, Updated(id, hand.attrs), id);
    var sum := SentSum(st.log, id) + hand.attrs;
    assert sum + map[] == sum && sum + map[] + map[] == sum;
  }

  lemma PutUpdateLog(now: Time, st: Store, hand: Hand, id: Id, cell: Option<string>)
    requires hand.Hand? && hand.id == id && IsLive(st, id) && LogOk(now, st, hand) && st.models[id].pending == map[]
    ensures LogOk(now, PutUpdate(st, id, hand.attrs, cell, now), Nothing)
  {
    var st2 := PutUpdate(st, id, hand.attrs, cell, now);
    assert SumOk(st, hand, id);
    UpdatedSum(st, st2, hand, id);
    LogStep(now, st, st2, hand, Nothing, id, Updated(id, hand.attrs));
  }

  lemma PutUpdateSent(w: World, st: Store, id: Id, update: Attrs, cell: Option<string>, now: Time)
    requires id in st.models
    ensures Sent(w, st, PutUpdate(st, id, update, cell, now), Outgoing(id, st.next, Update(update), cell))
  {
    var send := Send(Outgoing(id, st.next, Update(update), cell));
    SendsSnoc(st.fx, send);
    SendsSnoc(st.fx + [send], CheckInflightAfter(id, st.next, INFLIGHT_TIMEOUT));
  }

  lemma PutUpdateMirror(w: World, st: Store, hand: Hand, cell: Option<string>, now: Time)
    requires Ids(w, st) && Mirror(w, st, hand) && hand.Hand? && IsLive(st, hand.id)
    ensures Ids(w, PutUpdate(st, hand.id, hand.attrs, cell, now))
    ensures Mirror(w, PutUpdate(st, hand.id, hand.attrs, cell, now), Nothing)
  {
    var st2 := PutUpdate(st, hand.id, hand.attrs, cell, now);
    var m := Outgoing(hand.id, st.next, Update(hand.attrs), cell);
    PutUpdateSent(w, st, hand.id, hand.attrs, cell, now);
    SentKeepsIds(w, st, st2, m);
    SentKeepsMirror(w, st, hand, st2, Nothing, m);
  }

  lemma PutUpdateGood(w: World, st: Store, hand: Hand, slack: set<Id>, cell: Option<string>)
    requires Good(w, st, hand, slack) && hand.Hand?
    ensures Good(w, PutUpdate(st, hand.id, hand.attrs, cell, w.now), Nothing, slack)
  {
    PutUpdateRep(st, slack, hand.id, hand.attrs, cell, w.now);
    PutUpdateTimers(w, st, hand.id, hand.attrs, cell, w.now);
    PutUpdateLog(w.now, st, hand, hand.id, cell);
    PutUpdateMirror(w, st, hand, cell, w.now);
  }

  lemma {:induction false} FlushAllKeepsPending(st: Store, order: seq<Id>, now: Time, id: Id)
    requires id in st.models
    ensures id in FlushAll(st, order, now).models
    ensures FlushAll(st, order, now).models[id].pending == st.models[id].pending
    ensures FlushAll(st, order, now).models[id].pendingCell == st.models[id].pendingCell
    decreases |order|
  {
    if order != [] { FlushAllKeepsPending(SendOutputs(st, order[0], now, false), order[1..], now, id); }
  }

  lemma SendUpdateGood(w: World, st: Store, hand: Hand, slack: set<Id>, cell: Option<string>, e: Env)
    requires Good(w, st, hand, slack) && hand.Hand? && e.now == w.now
    ensures Good(w, SendUpdate(st, hand.id, hand.attrs, cell, e), Nothing, slack)
  {
    FlushAllGood(w, st, hand, slack, e.order);
    PutUpdateGood(w, FlushAll(st, e.order, e.now), hand, slack, cell);
  }

  // ---- queue_for_kernel ----

  function Joined(m: Model, update: Attrs, cell: Option<string>): Model {
    m.(attrs := Merge(m.attrs, update), pending := Merge(m.pending, update),
       pendingCell := if cell.Some? then cell else m.pendingCell)
  }

  /** The change is taken by the model and joins what is held. */
  function Join(st: Store, id: Id, update: Attrs, cell: Option<string>): Store
    requires id in st.models
  {
    st.(models := st.models[id := Joined(st.models[id], update, cell)], log := st.log + [Queued(id, update)])
  }

  lemma JoinedIs(m: Model, update: Attrs, cell: Option<string>)
    ensures var m1 := m.(attrs := Merge(m.attrs, update));
            var m2 := m1.(pending := Merge(m1.pending, update));
            Joined(m, update, cell) == if cell.Some? then m2.(pendingCell := cell) else m2
  {
  }

  lemma JoinIs(st: Store, id: Id, update: Attrs, cell: Option<string>)
    requires id in st.models
    ensures NameCell(Hold(SetAttrs(st, id, update), id, update), id, cell) == Join(st, id, update, cell)
  {
    var m := st.models[id];
    var m1 := m.(attrs := Merge(m.attrs, update));
    var m2 := m1.(pending := Merge(m1.pending, update));
    JoinedIs(m, update, cell);
    assert SetAttrs(st, id, update) == st.(models := st.models[id := m1]);
    assert st.models[id := m1][id := m2] == st.models[id := m2];
    assert st.models[id := m2][id := m2.(pendingCell := cell)] == st.models[id := m2.(pendingCell := cell)];
  }

  lemma MergeProper(m: Model, update: Attrs, name: string)
    requires (forall k <- m.attrs :: SlotOk(m, k)) && m.name == name
    ensures forall k <- Merge(m.attrs, update) ::
              Stripped(Merge(m.attrs, update)[k]) || (k == "outputs" && name == OUTPUT_MODEL)
  {
    forall k | k in Merge(m.attrs, update)
      ensures Stripped(Merge(m.attrs, update)[k]) || (k == "outputs" && name == OUTPUT_MODEL)
    {
      if k in update { NormIdempotent(update[k]); } else { assert SlotOk(m, k); }
    }
  }

  lemma JoinedOk(m: Model, update: Attrs, cell: Option<string>)
    requires ModelOk(m) && m.live && m.inflight.Some? && update != map[]
    ensures ModelOk(Joined(m, update, cell))
  {
    MergeProper(m, update, m.name);
    MergeKeepsStripped(m.pending, update);
    var k :| k in update;
    assert k in Merge(m.pending, update);
  }

  lemma JoinRep(st: Store, slack: set<Id>, id: Id, update: Attrs, cell: Option<string>)
    requires Rep(st, slack) && IsLive(st, id) && st.models[id].inflight.Some? && update != map[]
    ensures Rep(Join(st, id, update, cell), slack)
  {
    var st2 := Join(st, id, update, cell);
    assert ModelOk(st.models[id]) && OneEach(st.models[id]);
    JoinedOk(st.models[id], update, cell);
    assert st.inflight - {} == st.inflight;
    TrafficStep(st, st2, id, {}, false);
    RepStep(st, st2, slack, slack, id);
  }

  lemma SumAssoc(sent: Attrs, pending: Attrs, update: Attrs, held: Attrs, rest: Attrs)
    requires held + rest == Merge(pending, update)
    ensures Merge(sent + map[] + pending, update) == sent + held + rest
  {
    assert sent + held + rest == sent + (held + rest);
    assert sent + map[] == sent;
    assert Merge(sent + pending, update) == sent + Merge(pending, update);
  }

  lemma QueueLog(now: Time, st: Store, st2: Store, id: Id, update: Attrs, hand2: Hand)
    requires LogOk(now, st, Nothing) && OneChanged(st, st2, id) && st2.log == st.log + [Queued(id, update)]
    requires IsLive(st, id) && IsLive(st2, id) && st2.models[id].outSentAt == st.models[id].outSentAt
    requires forall x | x != id :: Held(hand2, x) == map[]
    requires Held(hand2, id) + st2.models[id].pending == Merge(st.models[id].pending, update)
    ensures LogOk(now, st2, hand2)
  {
    var item := Queued(id, update);
    SumsSnoc(st.log, item, id);
    assert SumOk(st, Nothing, id);
    SumAssoc(SentSum(st.log, id), st.models[id].pending, update, Held(hand2, id), st2.models[id].pending);
    LogStep(now, st, st2, Nothing, hand2, id, item);
  }

  /** The model took a change that is now held or in hand; nothing else the mirror reads changed. */
  lemma DirtyKeepsMirror(w: World, st: Store, hand: Hand, st2: Store, hand2: Hand, id: Id, update: Attrs)
    requires Mirror(w, st, hand) && OneChanged(st, st2, id) && Wire(w, st2) == Wire(w, st)
    requires st2.models[id].live == st.models[id].live && st2.models[id].expected == st.models[id].expected
    requires forall k | k !in update :: (k in st2.models[id].attrs <==> k in st.models[id].attrs)
                                        && (k in st.models[id].attrs ==> st2.models[id].attrs[k] == st.models[id].attrs[k])
    requires forall x, key, isOut | Dirty(st, hand, x, key, isOut) :: Dirty(st2, hand2, x, key, isOut)
    requires forall key, isOut | key in update && isOut == IsOut(w, id) :: Dirty(st2, hand2, id, key, isOut)
    ensures Mirror(w, st2, hand2)
  {
    forall x, key ensures InStep(w, st2, hand2, x, key) {
      assert InStep(w, st, hand, x, key);
      var v, v2 := ViewOf(st, x, key), ViewOf(st2, x, key);
      if x == id && key in update {
        FoldKeepsLive(w.fromKernel, v, v2, x, key, IsOut(w, x));
        FoldKeepsExp(w.fromKernel, v, v2, x, key, IsOut(w, x));
      } else {
        assert v == v2;
      }
    }
  }

  /** Nothing the identities read changed but the log, and there only an item of a live model. */
  lemma IdsStep(w: World, st: Store, st2: Store, id: Id)
    requires Ids(w, st) && OneChanged(st, st2, id) && Wire(w, st2) == Wire(w, st) && st2.next == st.next
    requires st2.models[id].live == st.models[id].live && st2.models[id].name == st.models[id].name
    requires st2.log == st.log || (IsLive(st, id) && forall item <- st2.log :: item in st.log || item.model == id)
    ensures Ids(w, st2)
  {
    assert forall x :: IsLive(st2, x) <==> IsLive(st, x);
    forall i | 0 <= i < |w.fromKernel| && w.fromKernel[i].Open? ensures Unlogged(st2.log, w.fromKernel[i].id) {
      assert !IsLive(st, w.fromKernel[i].id);
    }
    forall x | x in w.kernel ensures KernelOk(w, st2, x) {
      assert KernelOk(w, st, x);
    }
  }

  /** The timers are as they were, and the model sends no flush. */
  lemma TimersStep(w: World, st: Store, st2: Store, id: Id)
    requires TimersOk(w, st) && OneChanged(st, st2, id) && Armed(w, st2) == Armed(w, st)
    requires st2.inflight.Keys <= st.inflight.Keys && (forall msg <- st2.inflight :: st2.inflight[msg] == st.inflight[msg])
    requires st2.next == st.next
    requires st2.models[id].outInflight.Some? ==> st2.models[id].outInflight == st.models[id].outInflight
    requires st2.models[id].flushScheduled ==> st.models[id].flushScheduled
    ensures TimersOk(w, st2)
  {
    forall x: Id, msg: MsgId | CheckTimer(x, msg) in Armed(w, st2)
      ensures msg < st2.next && ForUpdate(st2, x, msg)
    {
      assert ForUpdate(st, x, msg);
    }
    forall x | x in st2.models && st2.models[x].flushScheduled ensures FlushTimer(x) in Armed(w, st2) {
      assert st.models[x].flushScheduled;
    }
  }

  lemma JoinSync(w: World, st: Store, id: Id, update: Attrs, cell: Option<string>)
    requires Ids(w, st) && TimersOk(w, st) && IsLive(st, id)
    ensures Ids(w, Join(st, id, update, cell)) && TimersOk(w, Join(st, id, update, cell))
  {
    IdsStep(w, st, Join(st, id, update, cell), id);
    TimersStep(w, st, Join(st, id, update, cell), id);
  }

  lemma JoinMirror(w: World, st: Store, id: Id, update: Attrs, cell: Option<string>)
    requires Mirror(w, st, Nothing) && IsLive(st, id)
    ensures Mirror(w, Join(st, id, update, cell), Nothing)
  {
    DirtyKeepsMirror(w, st, Nothing, Join(st, id, update, cell), Nothing, id, update);
  }

  lemma JoinLog(now: Time, st: Store, id: Id, update: Attrs, cell: Option<string>)
    requires LogOk(now, st, Nothing) && IsLive(st, id)
    ensures LogOk(now, Join(st, id, update, cell), Nothing)
  {
    var st2 := Join(st, id, update, cell);
    assert map[] + st2.models[id].pending == st2.models[id].pending;
    QueueLog(now, st, st2, id, update, Nothing);
  }

  lemma JoinGood(w: World, st: Store, slack: set<Id>, id: Id, update: Attrs, cell: Option<string>)
    requires Good(w, st, Nothing, slack)
    requires IsLive(st, id) && st.models[id].inflight.Some? && update != map[]
    ensures Good(w, Join(st, id, update, cell), Nothing, slack)
  {
    JoinRep(st, slack, id, update, cell);
    JoinSync(w, st, id, update, cell);
    JoinMirror(w, st, id, update, cell);
    JoinLog(w.now, st, id, update, cell);
  }

  function Taken(m: Model, update: Attrs): Model {
    m.(attrs := Merge(m.attrs, update), inflight := None, pending := map[], pendingCell := None)
  }

  /** The change is taken by the model, and it goes out at once with what was held. */
  function Take(st: Store, id: Id, update: Attrs): Store
    requires id in st.models
  {
    var m := st.models[id];
    st.(models := st.models[id := Taken(m, update)], log := st.log + [Queued(id, update)],
        inflight := if m.inflight.Some? then st.inflight - {m.inflight.value.id} else st.inflight)
  }

  lemma TakenIs(m: Model, update: Attrs)
    ensures var m1 := m.(attrs := Merge(m.attrs, update));
            m1.(pending := Merge(m1.pending, update)).(inflight := None, pending := map[], pendingCell := None) == Taken(m, update)
  {
  }

  lemma TakeIs(st: Store, id: Id, update: Attrs)
    requires id in st.models
    ensures TakeHeld(Hold(SetAttrs(st, id, update), id, update), id) == Take(st, id, update)
  {
    var m := st.models[id];
    var m1 := m.(attrs := Merge(m.attrs, update));
    var m2 := m1.(pending := Merge(m1.pending, update));
    TakenIs(m, update);
    assert SetAttrs(st, id, update) == st.(models := st.models[id := m1]);
    assert st.models[id := m1][id := m2] == st.models[id := m2];
    assert st.models[id := m2][id := Taken(m, update)] == st.models[id := Taken(m, update)];
  }

  lemma TakeRep(st: Store, slack: set<Id>, id: Id, update: Attrs)
    requires Rep(st, slack) && IsLive(st, id)
    ensures Rep(Take(st, id, update), slack)
  {
    var st2 := Take(st, id, update);
    var m := st.models[id];
    assert ModelOk(m) && OneEach(m);
    MergeProper(m, update, m.name);
    var ended := if m.inflight.Some? then {m.inflight.value.id} else {};
    assert m.inflight.None? ==> st.inflight - {} == st.inflight;
    TrafficStep(st, st2, id, ended, false);
    RepStep(st, st2, slack, slack, id);
  }

  lemma TakeSync(w: World, st: Store, id: Id, update: Attrs)
    requires Ids(w, st) && TimersOk(w, st) && IsLive(st, id)
    ensures Ids(w, Take(st, id, update)) && TimersOk(w, Take(st, id, update))
  {
    IdsStep(w, st, Take(st, id, update), id);
    TimersStep(w, st, Take(st, id, update), id);
  }

  lemma TakeMirror(w: World, st: Store, id: Id, update: Attrs)
    requires Mirror(w, st, Nothing) && IsLive(st, id)
    ensures Mirror(w, Take(st, id, update), Hand(id, Merge(st.models[id].pending, update)))
  {
    DirtyKeepsMirror(w, st, Nothing, Take(st, id, update), Hand(id, Merge(st.models[id].pending, update)), id, update);
  }

  lemma TakeLog(now: Time, st: Store, id: Id, update: Attrs)
    requires LogOk(now, st, Nothing) && IsLive(st, id)
    ensures LogOk(now, Take(st, id, update), Hand(id, Merge(st.models[id].pending, update)))
  {
    var hand2 := Hand(id, Merge(st.models[id].pending, update));
    assert hand2.attrs + map[] == hand2.attrs;
    QueueLog(now, st, Take(st, id, update), id, update, hand2);
  }

  lemma TakeGood(w: World, st: Store, slack: set<Id>, id: Id, update: Attrs)
    requires Good(w, st, Nothing, slack) && IsLive(st, id)
    ensures Good(w, Take(st, id, update), Hand(id, Merge(st.models[id].pending, update)), slack)
  {
    TakeRep(st, slack, id, update);
    TakeSync(w, st, id, update);
    TakeMirror(w, st, id, update);
    TakeLog(w.now, st, id, update);
  }

  lemma LocalChangeIs(st: Store, id: Id, update: Attrs, cell: Option<string>, e: Env)
    requires id in st.models
    ensures var m := st.models[id];
            LocalChange(st, id, update, cell, e) ==
            if Holds(m, e.now) then Join(st, id, update, cell)
            else SendUpdate(Take(st, id, update), id, Merge(m.pending, update),
                            if cell.Some? then cell else m.pendingCell, e)
  {
    JoinIs(st, id, update, cell);
    TakeIs(st, id, update);
  }

  lemma LocalChangeGood(w: World, st: Store, slack: set<Id>, id: Id, update: Attrs, cell: Option<string>, e: Env)
    requires Good(w, st, Nothing, slack) && IsLive(st, id) && update != map[] && e.now == w.now
    ensures Good(w, LocalChange(st, id, update, cell, e), Nothing, slack)
  {
    var m := st.models[id];
    LocalChangeIs(st, id, update, cell, e);
    if Holds(m, e.now) {
      JoinGood(w, st, slack, id, update, cell);
    } else {
      TakeGood(w, st, slack, id, update);
      SendUpdateGood(w, Take(st, id, update), Hand(id, Merge(m.pending, update)), slack,
                     if cell.Some? then cell else m.pendingCell, e);
    }
  }
}
