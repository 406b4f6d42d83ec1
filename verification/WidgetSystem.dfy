/** The store, its kernel and the channels between them as one system, and what every run of it
    keeps. */
module WidgetSystem {
  import opened Json
  import opened Attributes
  import opened WidgetStore
  import opened WidgetInvariants
  import opened WidgetSteps
  import opened WidgetFlow
  import opened WidgetLinkSteps
  import opened WidgetEvents
  import opened WidgetLifecycle

  datatype System = System(w: World, st: Store)

  /** What can happen next. `order` is the order in which the hash tables list their members. */
  datatype Action =
    | FrontendChanges(id: Id, change: Change, cell: Option<string>, order: seq<Id>)
    | FrontendSends(id: Id, content: Value, cell: Option<string>, order: seq<Id>)
    | Executes(order: seq<Id>)                // an execute request: the captures go out first
    | Delivers(order: seq<Id>)                // the store takes the kernel's next message
    | Fires(timer: Timer, order: seq<Id>)     // a timer that was armed
    | Passes(time: Time)
    | KernelTakes(answer: Change)             // the kernel takes our next message and echoes what it now holds
    | KernelSets(id: Id, change: Change)      // the kernel changes attributes and says so
    | OtherSets(id: Id, change: Change)       // the kernel takes and echoes another frontend's update
    | KernelOpens(id: Id, change: Change)
    | KernelCloses(id: Id)
    | KernelSays(ev: Event)                   // a message that carries no attribute
    | Restarts(keep: set<Id>)

  predicate NoAttribute(ev: Event) {
    ev.OpenOther? || ev.CustomEvent? || ev.Idle? || ev.Output? || ev.Display?
  }

  predicate Enabled(s: System, a: Action) {
    match a
    case Delivers(_) => s.w.fromKernel != []
    case Fires(timer, _) => timer in s.w.timers
    case KernelTakes(answer) =>
      s.w.toKernel != [] && (Answers(s.w, s.w.toKernel[0]) ==>
        AnswerOk(s.w, s.w.toKernel[0], answer))
    case KernelSets(id, c) => id in s.w.kernel && ChangeOk(c)
    case OtherSets(id, c) => id in s.w.kernel && ChangeOk(c)
    case KernelOpens(id, c) => id !in s.w.known && ChangeOk(c)
    case KernelCloses(id) => id in s.w.kernel
    case KernelSays(ev) => NoAttribute(ev)
    case _ => true
  }

  /** The kernel answers the updates of the models it has. */
  predicate Answers(w: World, m: Outgoing) {
    m.body.Update? && m.comm in w.kernel
  }

  /** The kernel echoes the attributes it was sent, an Output widget's outputs as JSON. */
  predicate AnswerOk(w: World, m: Outgoing, answer: Change)
    requires Answers(w, m)
  {
    && ChangeOk(answer) && answer.attrs.Keys == m.body.attrs.Keys
    && (IsOut(w, m.comm) && "outputs" in answer.attrs ==> answer.attrs["outputs"].value.Some?)
  }

  /** The call is over: its effects run. */
  function Done(w: World, st: Store): System {
    System(w.(toKernel := Wire(w, st), timers := Armed(w, st)), st.(fx := []))
  }

  function Say(w: World, ev: Event): World {
    w.(fromKernel := w.fromKernel + [ev])
  }

  function KernelHas(w: World, id: Id, attrs: Attrs): World
    requires id in w.kernel
  {
    w.(kernel := w.kernel[id := w.kernel[id].(attrs := w.kernel[id].attrs + attrs)])
  }

  function Receive(st: Store, ev: Event, e: Env): Store {
    match ev
    case Open(id, c) => CommOpen(st, id, c, e)
    case OpenOther(id) => RefuseOpen(st, id)
    case Changed(id, c) => KernelUpdate(st, id, c, e)
    case Echo(id, c, parent) => KernelEcho(st, id, c, parent, e)
    case CustomEvent(id) => KernelCustom(st, id)
    case Closed(id) => CommClose(st, id)
    case Idle(msg) => OnIdle(st, msg, e)
    case Output(request, ev) => RouteOutput(st, request, ev)
    case Display(display, data, metadata) => UpdateDisplay(st, e.order, display, data, metadata)
  }

  function Next(s: System, a: Action): System
    requires Enabled(s, a)
  {
    var w, st := s.w, s.st;
    match a
    case FrontendChanges(id, c, cell, order) => Done(w, FrontendUpdate(st, id, c, cell, Env(w.now, order)))
    case FrontendSends(id, content, cell, order) => Done(w, FrontendCustom(st, id, content, cell, Env(w.now, order)))
    case Executes(order) => Done(w, FlushAll(st, order, w.now))
    case Delivers(order) => Done(Rest(w), Receive(st, w.fromKernel[0], Env(w.now, order)))
    case Fires(FlushTimer(id), _) =>
      Done(w.(timers := w.timers - multiset{FlushTimer(id)}), FlushOutputs(st, id, w.now))
    case Fires(CheckTimer(id, msg), order) =>
      Done(w.(timers := w.timers - multiset{CheckTimer(id, msg)}), Release(st, id, msg, Env(w.now, order)))
    case Passes(time) => System(w.(now := w.now + time), st)
    case KernelTakes(answer) =>
      var m := w.toKernel[0];
      var w1 := w.(toKernel := w.toKernel[1..]);
      if Answers(w, m) then System(Taken(w, answer), st)
      else System(w1, st)
    case KernelSets(id, c) => System(Say(KernelHas(w, id, c.attrs), SetEvent(id, c, false)), st)
    case OtherSets(id, c) => System(Say(KernelHas(w, id, c.attrs), SetEvent(id, c, true)), st)
    case KernelOpens(id, c) =>
      System(Opens(w, id, c), st)
    case KernelCloses(id) => System(Say(w.(kernel := w.kernel - {id}), Closed(id)), st)
    case KernelSays(ev) => System(Say(w, ev), st)
    case Restarts(keep) => System(Restarted(w), Reset(st, keep))
  }

  ghost predicate Inv(s: System) {
    Good(s.w, s.st, Nothing, {}) && s.st.fx == []
  }

  // ---- the store's actions ----

  lemma DoneRest(w: World, st: Store)
    requires Ids(w, st) && Mirror(w, st, Nothing) && LogOk(w.now, st, Nothing) && TimersOk(w, st)
    ensures var s := Done(w, st);
            Ids(s.w, s.st) && Mirror(s.w, s.st, Nothing) && LogOk(s.w.now, s.st, Nothing) && TimersOk(s.w, s.st)
  {
    var s := Done(w, st);
    assert Wire(s.w, s.st) == Wire(w, st) by { assert Sends([]) == []; }
    assert Armed(s.w, s.st) == Armed(w, st) by { assert TimersOf([]) == multiset{}; }
    forall x, key ensures InStep(s.w, s.st, Nothing, x, key) { assert InStep(w, st, Nothing, x, key); }
    forall x ensures SumOk(s.st, Nothing, x) { assert SumOk(st, Nothing, x); }
    forall id | id in w.kernel ensures KernelOk(s.w, s.st, id) { assert KernelOk(w, st, id); }
    forall x: Id, msg: MsgId | CheckTimer(x, msg) in Armed(w, st) ensures ForUpdate(s.st, x, msg) {
      assert ForUpdate(st, x, msg);
    }
  }

  lemma DoneGood(w: World, st: Store)
    requires Good(w, st, Nothing, {})
    ensures Inv(Done(w, st))
  {
    DoneRest(w, st);
    assert forall x :: IsOutput(st, x) <==> IsOutput(st.(fx := []), x);
    SideRep(st, st.(fx := []), {});
  }

  lemma ReceiveGood(w: World, st: Store, e: Env)
    requires Good(w, st, Nothing, {}) && w.fromKernel != [] && e.now == w.now
    ensures Good(Rest(w), Receive(st, w.fromKernel[0], e), Nothing, {})
  {
    match w.fromKernel[0]
    case Open(id, c) => CommOpenGood(w, st, id, c, e);
    case OpenOther(id) => SkipGood(w, st); PostGood(Rest(w), st, id, Close, None);
    case Changed(id, c) => KernelUpdateGood(w, st, id, c, e);
    case Echo(id, c, parent) => KernelEchoGood(w, st, id, c, parent, e);
    case CustomEvent(id) => SkipGood(w, st); NotifyGood(Rest(w), st, id);
    case Closed(id) => CommCloseGood(w, st, id);
    case Idle(msg) => SkipGood(w, st); OnIdleGood(Rest(w), st, msg, e);
    case Output(request, ev) => SkipGood(w, st); RouteOutputGood(Rest(w), st, request, ev);
    case Display(display, data, metadata) =>
      SkipGood(w, st); UpdateDisplayGood(Rest(w), st, e.order, display, data, metadata);
  }

  lemma FireCheckGood(w: World, st: Store, id: Id, msg: MsgId, e: Env)
    requires Good(w, st, Nothing, {}) && st.fx == [] && CheckTimer(id, msg) in w.timers && e.now == w.now
    ensures Good(w.(timers := w.timers - multiset{CheckTimer(id, msg)}), Release(st, id, msg, e), Nothing, {})
  {
    var w2 := w.(timers := w.timers - multiset{CheckTimer(id, msg)});
    assert TimersOf([]) == multiset{};
    assert CheckTimer(id, msg) in Armed(w, st);
    SameEvents(w, w2, st);
    assert TimersOk(w2, st) by {
      forall x: Id, y: MsgId | CheckTimer(x, y) in Armed(w2, st) ensures y < st.next && ForUpdate(st, x, y) {
        assert CheckTimer(x, y) in Armed(w, st);
      }
      forall x | x in st.models && st.models[x].flushScheduled ensures FlushTimer(x) in Armed(w2, st) {
        assert FlushTimer(x) in Armed(w, st);
      }
    }
    ReleaseGood(w2, st, {}, id, msg, e);
  }

  lemma PassGood(w: World, st: Store, time: Time)
    requires Good(w, st, Nothing, {})
    ensures Good(w.(now := w.now + time), st, Nothing, {})
  {
    var w2 := w.(now := w.now + time);
    forall x, key ensures InStep(w2, st, Nothing, x, key) { assert InStep(w, st, Nothing, x, key); }
    forall id | id in w.kernel ensures KernelOk(w2, st, id) { assert KernelOk(w, st, id); }
    assert Armed(w2, st) == Armed(w, st);
  }

  // ---- the kernel's actions ----

  /** The store sees nothing of what the kernel does before its message comes. */
  lemma WorldOnly(w: World, w2: World, st: Store)
    requires Good(w, st, Nothing, {}) && st.fx == []
    requires w2.timers == w.timers && w2.now == w.now
    requires Ids(w2, st) && Mirror(w2, st, Nothing)
    ensures Inv(System(w2, st))
  {
    assert Armed(w2, st) == Armed(w, st);
  }

  lemma IdsSay(w: World, w2: World, st: Store, ev: Event)
    requires Ids(w, st) && w2.fromKernel == w.fromKernel + [ev] && w2.toKernel == w.toKernel
    requires !ev.Open? && EventOk(ev) && (ev.Echo? && ev.parent.Some? ==> ev.parent.value < st.next)
    requires w2.known == w.known && w2.kernel.Keys <= w.kernel.Keys
    requires ev.Closed? ==> ev.id !in w2.kernel && ev.id in w.known
    requires forall id <- w2.kernel :: w2.kernel[id].name == w.kernel[id].name && Proper(w2.kernel[id].attrs)
    ensures Ids(w2, st)
  {
    forall id | id in w2.kernel ensures KernelOk(w2, st, id) { assert KernelOk(w, st, id); }
    assert Wire(w2, st) == Wire(w, st);
  }

  lemma MirrorSay(w: World, w2: World, st: Store, ev: Event)
    requires Mirror(w, st, Nothing) && w2.fromKernel == w.fromKernel + [ev] && w2.toKernel == w.toKernel
    requires forall id, key :: Told(w, w2, st, ev, id, key)
    ensures Mirror(w2, st, Nothing)
  {
    forall id, key ensures InStep(w2, st, Nothing, id, key) {
      assert InStep(w, st, Nothing, id, key) && Told(w, w2, st, ev, id, key);
      FoldSnoc(w.fromKernel, ev, ViewOf(st, id, key), id, key, IsOut(w2, id));
    }
  }

  /** The last message leaves an attribute as the kernel now has it. */
  ghost predicate Told(w: World, w2: World, st: Store, ev: Event, id: Id, key: string) {
    var isOut := IsOut(w2, id);
    var v := Fold(w.fromKernel, ViewOf(st, id, key), id, key, isOut);
    var s := Step(v, ev, id, key, isOut);
    && (s.live <==> id in w2.kernel)
    && (id in w2.kernel ==>
          && s.exp == LastCarrier(Wire(w, st), id, key)
          && (s.exp.None? ==> Dirty(st, Nothing, id, key, isOut) || Agree(isOut, key, s.entry, KernelEntry(w2, id, key))))
  }

  function SetEvent(id: Id, c: Change, other: bool): Event {
    if other then Echo(id, c, None) else Changed(id, c)
  }

  lemma SetsTold(w: World, st: Store, id: Id, c: Change, other: bool, x: Id, key: string)
    requires InStep(w, st, Nothing, x, key) && id in w.kernel && ChangeOk(c)
    ensures Told(w, Say(KernelHas(w, id, c.attrs), SetEvent(id, c, other)), st, SetEvent(id, c, other), x, key)
  {
    assert IsOut(Say(KernelHas(w, id, c.attrs), SetEvent(id, c, other)), x) == IsOut(w, x);
    if x == id && key in c.attrs { assert Norm(c.attrs[key]) == c.attrs[key]; }
  }

  lemma SetsGood(w: World, st: Store, id: Id, c: Change, other: bool)
    requires Good(w, st, Nothing, {}) && st.fx == [] && id in w.kernel && ChangeOk(c)
    ensures Inv(System(Say(KernelHas(w, id, c.attrs), SetEvent(id, c, other)), st))
  {
    var ev := SetEvent(id, c, other);
    var w2 := Say(KernelHas(w, id, c.attrs), ev);
    forall x | x in w2.kernel ensures w2.kernel[x].name == w.kernel[x].name && Proper(w2.kernel[x].attrs) {
      assert KernelOk(w, st, x);
    }
    IdsSay(w, w2, st, ev);
    forall x, key ensures Told(w, w2, st, ev, x, key) {
      assert InStep(w, st, Nothing, x, key);
      SetsTold(w, st, id, c, other, x, key);
    }
    MirrorSay(w, w2, st, ev);
    WorldOnly(w, w2, st);
  }

  lemma {:induction false} NoCarrier(wire: seq<Outgoing>, id: Id, key: string)
    requires forall m <- wire :: m.body.Update? ==> m.comm != id
    ensures LastCarrier(wire, id, key) == None
  {
    if wire != [] {
      assert wire[|wire| - 1] in wire;
      NoCarrier(wire[..|wire| - 1], id, key);
    }
  }

  function Opens(w: World, id: Id, c: Change): World {
    w.(kernel := w.kernel[id := KernelModel(Opened(c).name, c.attrs)], known := w.known + {id},
       fromKernel := w.fromKernel + [Open(id, c)])
  }

  lemma OpensKernel(w: World, st: Store, id: Id, c: Change, x: Id)
    requires Ids(w, st) && id !in w.known && ChangeOk(c) && x in Opens(w, id, c).kernel
    ensures KernelOk(Opens(w, id, c), st, x)
  {
    OpensNew(w, st, id);
    if x != id { assert KernelOk(w, st, x); }
  }

  lemma OpensEvents(w: World, st: Store, id: Id, c: Change)
    requires EventsOk(w, st) && id !in w.known && ChangeOk(c) && !IsLive(st, id) && Unlogged(st.log, id)
    ensures EventsOk(Opens(w, id, c), st)
  {
    var w2 := Opens(w, id, c);
    forall i | 0 <= i < |w2.fromKernel| && w2.fromKernel[i].Open?
      ensures w2.fromKernel[i].id in w2.known && !IsLive(st, w2.fromKernel[i].id) && Unlogged(st.log, w2.fromKernel[i].id)
      ensures forall j | i < j < |w2.fromKernel| :: !IsOpenOf(w2.fromKernel[j], w2.fromKernel[i].id)
    {
      if i < |w.fromKernel| { assert w2.fromKernel[i] == w.fromKernel[i]; }
    }
  }

  lemma OpensIds(w: World, st: Store, id: Id, c: Change)
    requires Ids(w, st) && id !in w.known && ChangeOk(c)
    ensures Ids(Opens(w, id, c), st)
  {
    var w2 := Opens(w, id, c);
    assert Wire(w2, st) == Wire(w, st);
    OpensNew(w, st, id);
    OpensEvents(w, st, id, c);
    forall x | x in w2.kernel ensures KernelOk(w2, st, x) { OpensKernel(w, st, id, c, x); }
  }

  /** An id no kernel opened has never been on the way. */
  lemma OpensNew(w: World, st: Store, id: Id)
    requires Ids(w, st) && id !in w.known
    ensures forall ev <- w.fromKernel :: !IsOpenOf(ev, id)
    ensures id !in w.kernel && !IsLive(st, id)
    ensures forall key :: LastCarrier(Wire(w, st), id, key) == None
    ensures Say(w, Closed(id)).fromKernel == w.fromKernel + [Closed(id)]
  {
    forall key ensures LastCarrier(Wire(w, st), id, key) == None { NoCarrier(Wire(w, st), id, key); }
    assert id !in w.kernel by { assert forall x <- w.kernel :: KernelOk(w, st, x); }
    forall ev | ev in w.fromKernel ensures !IsOpenOf(ev, id) {
      var i :| 0 <= i < |w.fromKernel| && w.fromKernel[i] == ev;
      assert w.fromKernel[i].Open? ==> w.fromKernel[i].id in w.known;
    }
  }

  lemma OpensToldSelf(w: World, st: Store, id: Id, c: Change, key: string)
    requires !IsLive(st, id) && ChangeOk(c) && id !in w.kernel && InStep(w, st, Nothing, id, key)
    requires LastCarrier(Wire(w, st), id, key) == None
    ensures Told(w, Opens(w, id, c), st, Open(id, c), id, key)
  {
    if key in c.attrs { assert Norm(c.attrs[key]) == c.attrs[key]; }
  }

  lemma OpensToldOther(w: World, st: Store, id: Id, c: Change, x: Id, key: string)
    requires x != id && InStep(w, st, Nothing, x, key)
    ensures Told(w, Opens(w, id, c), st, Open(id, c), x, key)
  {
    assert IsOut(Opens(w, id, c), x) == IsOut(w, x);
  }

  lemma OpensTold(w: World, st: Store, id: Id, c: Change, x: Id, key: string)
    requires Ids(w, st) && id !in w.known && ChangeOk(c) && InStep(w, st, Nothing, x, key)
    ensures Told(w, Opens(w, id, c), st, Open(id, c), x, key)
  {
    OpensNew(w, st, id);
    if x != id { OpensToldOther(w, st, id, c, x, key); } else { OpensToldSelf(w, st, id, c, key); }
  }

  lemma OpensGood(w: World, st: Store, id: Id, c: Change)
    requires Good(w, st, Nothing, {}) && st.fx == [] && id !in w.known && ChangeOk(c)
    ensures Inv(System(Opens(w, id, c), st))
  {
    var w2 := Opens(w, id, c);
    OpensIds(w, st, id, c);
    forall x, key ensures Told(w, w2, st, Open(id, c), x, key) {
      assert InStep(w, st, Nothing, x, key);
      OpensTold(w, st, id, c, x, key);
    }
    MirrorSay(w, w2, st, Open(id, c));
    WorldOnly(w, w2, st);
  }

  lemma ClosesGood(w: World, st: Store, id: Id)
    requires Good(w, st, Nothing, {}) && st.fx == [] && id in w.kernel
    ensures Inv(System(Say(w.(kernel := w.kernel - {id}), Closed(id)), st))
  {
    var w2 := Say(w.(kernel := w.kernel - {id}), Closed(id));
    assert KernelOk(w, st, id);
    assert forall x <- w.kernel :: KernelOk(w, st, x);
    IdsSay(w, w2, st, Closed(id));
    forall x, key ensures Told(w, w2, st, Closed(id), x, key) {
      assert InStep(w, st, Nothing, x, key);
      if x != id { assert IsOut(w2, x) == IsOut(w, x); }
    }
    MirrorSay(w, w2, st, Closed(id));
    WorldOnly(w, w2, st);
  }

  lemma SaysGood(w: World, st: Store, ev: Event)
    requires Good(w, st, Nothing, {}) && st.fx == [] && NoAttribute(ev)
    ensures Inv(System(Say(w, ev), st))
  {
    var w2 := Say(w, ev);
    assert forall x <- w.kernel :: KernelOk(w, st, x);
    IdsSay(w, w2, st, ev);
    forall x, key ensures Told(w, w2, st, ev, x, key) {
      assert InStep(w, st, Nothing, x, key);
      assert IsOut(w2, x) == IsOut(w, x);
    }
    MirrorSay(w, w2, st, ev);
    WorldOnly(w, w2, st);
  }

  // ---- the kernel takes a message ----

  lemma {:induction false} LastCarrierTail(wire: seq<Outgoing>, id: Id, key: string)
    requires wire != []
    ensures LastCarrier(wire, id, key) ==
            if LastCarrier(wire[1..], id, key).Some? then LastCarrier(wire[1..], id, key)
            else if Carries(wire[0], id, key) then Some(wire[0].id) else None
    ensures LastCarrier(wire[1..], id, key).Some? ==> exists m <- wire[1..] :: LastCarrier(wire[1..], id, key) == Some(m.id)
    decreases |wire|
  {
    if |wire| > 1 {
      var init := wire[..|wire| - 1];
      LastCarrierTail(init, id, key);
      assert wire[1..][..|wire| - 2] == init[1..];
      assert wire[1..][|wire| - 2] == wire[|wire| - 1];
      assert forall m <- init[1..] :: m in wire[1..];
    }
  }

  lemma TakesIds(w: World, st: Store)
    requires Ids(w, st) && st.fx == [] && w.toKernel != []
    ensures Ids(w.(toKernel := w.toKernel[1..]), st)
  {
    var w1 := w.(toKernel := w.toKernel[1..]);
    assert Wire(w, st) == w.toKernel && Wire(w1, st) == w.toKernel[1..] by { assert Sends([]) == []; }
    forall x | x in w.kernel ensures KernelOk(w1, st, x) { assert KernelOk(w, st, x); }
  }

  /** A message nobody has to answer. */
  lemma TakesOtherGood(w: World, st: Store)
    requires Good(w, st, Nothing, {}) && st.fx == [] && w.toKernel != [] && !Answers(w, w.toKernel[0])
    ensures Inv(System(w.(toKernel := w.toKernel[1..]), st))
  {
    var w1 := w.(toKernel := w.toKernel[1..]);
    TakesIds(w, st);
    WireIs(w, st);
    forall x, key ensures InStep(w1, st, Nothing, x, key) {
      assert InStep(w, st, Nothing, x, key);
      LastCarrierTail(w.toKernel, x, key);
    }
    WorldOnly(w, w1, st);
  }

  lemma WireIs(w: World, st: Store)
    requires st.fx == []
    ensures Wire(w, st) == w.toKernel
    ensures w.toKernel != [] ==> Wire(w.(toKernel := w.toKernel[1..]), st) == w.toKernel[1..]
  {
    assert Sends([]) == [];
  }

  function Taken(w: World, answer: Change): World
    requires w.toKernel != [] && Answers(w, w.toKernel[0])
  {
    Say(KernelHas(w.(toKernel := w.toKernel[1..]), w.toKernel[0].comm, answer.attrs), TakenEvent(w, answer))
  }

  function TakenEvent(w: World, answer: Change): Event
    requires w.toKernel != []
  {
    Echo(w.toKernel[0].comm, answer, Some(w.toKernel[0].id))
  }

  /** The ids on the wire grow, so the echo of the first message answers no later carrier. */
  lemma LaterCarrier(w: World, st: Store, x: Id, key: string)
    requires Ids(w, st) && st.fx == [] && w.toKernel != []
    ensures LastCarrier(w.toKernel[1..], x, key) != Some(w.toKernel[0].id)
  {
    WireIs(w, st);
    LastCarrierTail(w.toKernel, x, key);
    var last := LastCarrier(w.toKernel[1..], x, key);
    if last.Some? {
      var n :| n in w.toKernel[1..] && last == Some(n.id);
      assert w.toKernel[0].id < n.id;
    }
  }

  /** The message was the last to carry the attribute: its echo settles it. */
  lemma EchoSettles(v: View, id: Id, answer: Change, parent: MsgId, key: string, isOut: bool)
    requires v.live && v.exp == Some(parent) && ChangeOk(answer) && key in answer.attrs
    requires isOut && key == "outputs" ==> answer.attrs[key].value.Some?
    ensures var s := Step(v, Echo(id, answer, Some(parent)), id, key, isOut);
            s.live && s.exp == None && Agree(isOut, key, s.entry, Some(answer.attrs[key]))
  {
    assert Norm(answer.attrs[key]) == answer.attrs[key];
    if answer.attrs[key].value.Some? { OutputsMatchIsEquality(answer.attrs[key].value.value, EntryValue(v.entry)); }
  }

  lemma TakesTold(w: World, st: Store, answer: Change, x: Id, key: string)
    requires st.fx == [] && w.toKernel != [] && Answers(w, w.toKernel[0]) && AnswerOk(w, w.toKernel[0], answer)
    requires Ids(w, st) && InStep(w, st, Nothing, x, key)
    ensures Told(w.(toKernel := w.toKernel[1..]), Taken(w, answer), st, TakenEvent(w, answer), x, key)
  {
    var m := w.toKernel[0];
    WireIs(w, st);
    assert IsOut(Taken(w, answer), x) == IsOut(w, x);
    LastCarrierTail(w.toKernel, x, key);
    LaterCarrier(w, st, x, key);
    if x == m.comm && key in answer.attrs {
      var v := Fold(w.fromKernel, ViewOf(st, x, key), x, key, IsOut(w, x));
      assert v.live && v.exp.Some?;
      if v.exp == Some(m.id) { EchoSettles(v, x, answer, m.id, key, IsOut(w, x)); }
    }
  }

  lemma TakesGood(w: World, st: Store, answer: Change)
    requires Good(w, st, Nothing, {}) && st.fx == []
    requires w.toKernel != [] && Answers(w, w.toKernel[0]) && AnswerOk(w, w.toKernel[0], answer)
    ensures Inv(System(Taken(w, answer), st))
  {
    var w1 := w.(toKernel := w.toKernel[1..]);
    var m, w2, ev := w.toKernel[0], Taken(w, answer), TakenEvent(w, answer);
    TakesIds(w, st);
    WireIs(w, st);
    forall x | x in w2.kernel ensures w2.kernel[x].name == w1.kernel[x].name && Proper(w2.kernel[x].attrs) {
      assert KernelOk(w, st, x);
    }
    assert m in Wire(w, st);
    IdsSay(w1, w2, st, ev);
    forall x, key ensures InStep(w2, st, Nothing, x, key) {
      assert InStep(w, st, Nothing, x, key);
      TakesTold(w, st, answer, x, key);
      FoldSnoc(w.fromKernel, ev, ViewOf(st, x, key), x, key, IsOut(w2, x));
      assert Wire(w2, st) == Wire(w1, st);
    }
    WorldOnly(w, w2, st);
  }

  // ---- every run ----

  predicate OfStore(a: Action) {
    a.FrontendChanges? || a.FrontendSends? || a.Executes? || a.Delivers? || a.Fires?
  }

  lemma StorePreserves(s: System, a: Action)
    requires Inv(s) && Enabled(s, a) && OfStore(a)
    ensures Inv(Next(s, a))
  {
    var w, st := s.w, s.st;
    match a
    case FrontendChanges(id, c, cell, order) =>
      FrontendUpdateGood(w, st, id, c, cell, Env(w.now, order));
      DoneGood(w, FrontendUpdate(st, id, c, cell, Env(w.now, order)));
    case FrontendSends(id, content, cell, order) =>
      FrontendCustomGood(w, st, id, content, cell, Env(w.now, order));
      DoneGood(w, FrontendCustom(st, id, content, cell, Env(w.now, order)));
    case Executes(order) =>
      FlushAllGood(w, st, Nothing, {}, order);
      DoneGood(w, FlushAll(st, order, w.now));
    case Delivers(order) =>
      ReceiveGood(w, st, Env(w.now, order));
      DoneGood(Rest(w), Receive(st, w.fromKernel[0], Env(w.now, order)));
    case Fires(FlushTimer(id), _) =>
      FlushOutputsGood(w, st, id);
      DoneGood(w.(timers := w.timers - multiset{FlushTimer(id)}), FlushOutputs(st, id, w.now));
    case Fires(CheckTimer(id, msg), order) =>
      FireCheckGood(w, st, id, msg, Env(w.now, order));
      DoneGood(w.(timers := w.timers - multiset{CheckTimer(id, msg)}), Release(st, id, msg, Env(w.now, order)));
  }

  lemma WorldPreserves(s: System, a: Action)
    requires Inv(s) && Enabled(s, a) && !OfStore(a)
    ensures Inv(Next(s, a))
  {
    var w, st := s.w, s.st;
    match a
    case Passes(time) => PassGood(w, st, time);
    case KernelTakes(answer) =>
      if Answers(w, w.toKernel[0]) { TakesGood(w, st, answer); } else { TakesOtherGood(w, st); }
    case KernelSets(id, c) => SetsGood(w, st, id, c, false);
    case OtherSets(id, c) => SetsGood(w, st, id, c, true);
    case KernelOpens(id, c) => OpensGood(w, st, id, c);
    case KernelCloses(id) => ClosesGood(w, st, id);
    case KernelSays(ev) => SaysGood(w, st, ev);
    case Restarts(keep) => ResetGood(w, st, keep);
  }

  /** Whatever happens next keeps everything WidgetInvariants states. */
  lemma Preserved(s: System, a: Action)
    requires Inv(s) && Enabled(s, a)
    ensures Inv(Next(s, a))
  {
    if OfStore(a) { StorePreserves(s, a); } else { WorldPreserves(s, a); }
  }

  /** A run is the list of the states it goes through. */
  ghost predicate Run(states: seq<System>, actions: seq<Action>) {
    && |states| == |actions| + 1 && Starts(states[0])
    && forall i | 0 <= i < |actions| :: Enabled(states[i], actions[i]) && states[i + 1] == Next(states[i], actions[i])
  }

  /** A run starts with no kernel, and with the saved models of a notebook loaded as dead ones. */
  ghost predicate Starts(s: System) {
    && s.w == World([], [], map[], {}, multiset{}, s.w.now)
    && s.st == Empty().(models := s.st.models)
    && forall id <- s.st.models :: !s.st.models[id].live && ModelOk(s.st.models[id])
  }

  lemma StartsRep(st: Store)
    requires st == Empty().(models := st.models) && forall id <- st.models :: !st.models[id].live && ModelOk(st.models[id])
    ensures Rep(st, {})
  {
    forall id | id in st.models ensures OneEach(st.models[id]) && forall msg: MsgId :: !Awaits(st.models[id], msg) {
      assert ModelOk(st.models[id]);
    }
    forall end, l ensures Indexed(st.linkIndex, end, l) <==> l in st.links && Touches(st.links[l], end) {}
  }

  lemma StartsRest(s: System)
    requires Starts(s)
    ensures TimersOk(s.w, s.st) && Ids(s.w, s.st) && LogOk(s.w.now, s.st, Nothing)
  {
    var w, st := s.w, s.st;
    assert Wire(w, st) == [] && Armed(w, st) == multiset{} by { assert Sends([]) == [] && TimersOf([]) == multiset{}; }
    forall id | id in st.models ensures !st.models[id].flushScheduled { assert ModelOk(st.models[id]); }
    forall x ensures SumOk(st, Nothing, x) && !IsLive(st, x) {}
  }

  lemma StartsGood(s: System)
    requires Starts(s)
    ensures Inv(s)
  {
    StartsRep(s.st);
    StartsRest(s);
    assert Wire(s.w, s.st) == [] by { assert Sends([]) == []; }
    forall x, key ensures InStep(s.w, s.st, Nothing, x, key) {}
  }

  lemma {:induction false} Always(states: seq<System>, actions: seq<Action>, n: nat)
    requires Run(states, actions) && n < |states|
    ensures Inv(states[n])
  {
    if n == 0 {
      StartsGood(states[0]);
    } else {
      Always(states, actions, n - 1);
      Preserved(states[n - 1], actions[n - 1]);
    }
  }

  /** Both channels are empty, nothing is held and no capture waits. */
  predicate AtRest(s: System) {
    && s.w.toKernel == [] && s.w.fromKernel == [] && s.st.waiting == {}
    && forall id <- s.st.models :: s.st.models[id].pending == map[]
  }

  function StoreEntry(st: Store, id: Id, key: string): Option<Entry>
    requires id in st.models
  {
    if key in st.models[id].attrs then Some(st.models[id].attrs[key]) else None
  }

  /** Convergence. Whatever happened, once the system is at rest the models connected in the store
      are the models the kernel has, with the kernel's value in every attribute. */
  lemma Converges(states: seq<System>, actions: seq<Action>, n: nat, id: Id, key: string)
    requires Run(states, actions) && n < |states| && AtRest(states[n])
    ensures var s := states[n];
            && (IsLive(s.st, id) <==> id in s.w.kernel)
            && (id in s.w.kernel ==>
                  if s.w.kernel[id].name == OUTPUT_MODEL && key == "outputs"
                  then OutputsForKernel(EntryValue(StoreEntry(s.st, id, key))) == OutputsForKernel(EntryValue(KernelEntry(s.w, id, key)))
                  else StoreEntry(s.st, id, key) == KernelEntry(s.w, id, key))
  {
    var s := states[n];
    Always(states, actions, n);
    WireIs(s.w, s.st);
    assert InStep(s.w, s.st, Nothing, id, key);
  }

  /** The representation invariant of the store in every state of every run. */
  lemma AlwaysRep(states: seq<System>, actions: seq<Action>, n: nat)
    requires Run(states, actions) && n < |states|
    ensures Rep(states[n].st, {})
  {
    Always(states, actions, n);
  }

  /** No change is lost by joining changes that are held: for a connected model, the updates sent
      so far, one over the other, and then the held ones are the changes made so far, one over the
      other, and nothing is held without an update in flight that will release it. */
  lemma NoChangeLost(states: seq<System>, actions: seq<Action>, n: nat, id: Id)
    requires Run(states, actions) && n < |states| && IsLive(states[n].st, id)
    ensures var st := states[n].st;
            && QueuedSum(st.log, id) == SentSum(st.log, id) + st.models[id].pending
            && (st.models[id].pending != map[] ==> st.models[id].inflight.Some?)
  {
    var st := states[n].st;
    Always(states, actions, n);
    assert SumOk(st, Nothing, id) && ModelOk(st.models[id]);
    assert SentSum(st.log, id) + map[] == SentSum(st.log, id);
  }

  /** A capture that waits is never stranded: a flush of its model is in flight, or a timer that
      will send it is outstanding. */
  lemma NoCaptureStranded(states: seq<System>, actions: seq<Action>, n: nat, id: Id)
    requires Run(states, actions) && n < |states| && id in states[n].st.waiting
    ensures var s := states[n];
            && IsOutput(s.st, id)
            && (s.st.models[id].outInflight.Some? || FlushTimer(id) in s.w.timers)
  {
    Always(states, actions, n);
    assert TimersOf([]) == multiset{};
  }

  /** A model whose timer flag is set has a timer outstanding. */
  lemma SetFlagHasTimer(states: seq<System>, actions: seq<Action>, n: nat, id: Id)
    requires Run(states, actions) && n < |states| && id in states[n].st.models && states[n].st.models[id].flushScheduled
    ensures FlushTimer(id) in states[n].w.timers
  {
    Always(states, actions, n);
    assert TimersOf([]) == multiset{};
  }

  /** At most one flush and one update of a model are in flight. */
  lemma OneOfEachInFlight(states: seq<System>, actions: seq<Action>, n: nat, id: Id, x: MsgId, y: MsgId)
    requires Run(states, actions) && n < |states|
    requires var st := states[n].st; x in st.inflight && y in st.inflight && st.inflight[x] == id && st.inflight[y] == id
    ensures var st := states[n].st;
            && id in st.models && x in st.ours
            && ((st.models[id].outInflight == Some(x) <==> st.models[id].outInflight == Some(y)) ==> x == y)
  {
    Always(states, actions, n);
    assert Awaits(states[n].st.models[id], x) && Awaits(states[n].st.models[id], y);
  }

  /** Flushes that wait for the cadence keep it: one goes out at least OUTPUT_FLUSH after the
      flush of the same model before it, forced or not. */
  lemma CadenceKept(states: seq<System>, actions: seq<Action>, n: nat, i: nat, j: nat)
    requires Run(states, actions) && n < |states|
    requires i < j < |states[n].st.log|
    requires var log := states[n].st.log;
             log[i].Flushed? && log[j].Flushed? && log[i].model == log[j].model && log[j].paced
    ensures states[n].st.log[i].at + OUTPUT_FLUSH <= states[n].st.log[j].at
  {
    Always(states, actions, n);
  }
}
