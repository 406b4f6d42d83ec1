/** What holds between the store, its kernel, the two channels and the timers, between any two
    calls and at every point inside one. */
module WidgetInvariants {
  import opened Json
  import opened Attributes
  import opened WidgetStore
  import OutputFold

  // ---- the world of the store ----

  datatype KernelModel = KernelModel(name: string, attrs: Attrs)

  /** A message of the kernel, in the order it was sent. */
  datatype Event =
    | Open(id: Id, open: Change)
    | OpenOther(id: Id)
    | Changed(id: Id, change: Change)
    | Echo(id: Id, echo: Change, parent: Option<MsgId>)
    | CustomEvent(id: Id)
    | Closed(id: Id)
    | Idle(msg: MsgId)
    | Output(request: string, ev: OutputFold.Event)
    | Display(display: string, data: Value, metadata: Value)

  datatype Timer = FlushTimer(model: Id) | CheckTimer(model: Id, msg: MsgId)

  datatype World = World(
    toKernel: seq<Outgoing>,
    fromKernel: seq<Event>,
    kernel: map<Id, KernelModel>,
    known: set<Id>,            // every comm id the kernels ever opened
    timers: multiset<Timer>,    // the timers armed and not fired
    now: Time
  )

  function Sends(fx: seq<Effect>): seq<Outgoing> {
    if fx == [] then []
    else
      var last := fx[|fx| - 1];
      Sends(fx[..|fx| - 1]) + if last.Send? then [last.msg] else []
  }

  function TimersOf(fx: seq<Effect>): multiset<Timer> {
    if fx == [] then multiset{}
    else
      var last := fx[|fx| - 1];
      TimersOf(fx[..|fx| - 1]) +
      match last
      case FlushOutputsAfter(id, _) => multiset{FlushTimer(id)}
      case CheckInflightAfter(id, msg, _) => multiset{CheckTimer(id, msg)}
      case _ => multiset{}
  }

  /** What is on its way to the kernel once the effects of the current call ran. */
  function Wire(w: World, st: Store): seq<Outgoing> {
    w.toKernel + Sends(st.fx)
  }

  function Armed(w: World, st: Store): multiset<Timer> {
    w.timers + TimersOf(st.fx)
  }

  lemma SendsSnoc(fx: seq<Effect>, effect: Effect)
    ensures Sends(fx + [effect]) == Sends(fx) + if effect.Send? then [effect.msg] else []
    ensures TimersOf(fx + [effect]) == TimersOf(fx) + TimersOf([effect])
  {
    assert (fx + [effect])[..|fx|] == fx;
    assert [effect][..0] == [];
    assert TimersOf([]) == multiset{};
  }

  /** The changes taken out of a model and about to be sent. */
  datatype Hand = Nothing | Hand(id: Id, attrs: Attrs)

  function Held(hand: Hand, id: Id): Attrs {
    if hand.Hand? && hand.id == id then hand.attrs else map[]
  }

  // ---- the store by itself ----

  predicate Awaits(m: Model, msg: MsgId) {
    (m.inflight.Some? && m.inflight.value.id == msg) || m.outInflight == Some(msg)
  }

  predicate IsOutput(st: Store, id: Id) {
    IsLive(st, id) && st.models[id].name == OUTPUT_MODEL
  }

  /** `inflight` holds the ids the models wait for and no other, each one ours and none new. */
  ghost predicate Traffic(st: Store) {
    && (forall msg <- st.inflight :: st.inflight[msg] in st.models && Awaits(st.models[st.inflight[msg]], msg))
    && (forall id, msg | id in st.models && Awaits(st.models[id], msg) :: msg in st.inflight && st.inflight[msg] == id)
    && (forall id <- st.models :: OneEach(st.models[id]))
    && st.inflight.Keys <= st.ours
    && (forall msg <- st.ours :: msg < st.next)
  }

  predicate OneEach(m: Model) {
    m.inflight.Some? ==> m.outInflight != Some(m.inflight.value.id)
  }

  /** A dead model has no traffic, and changes are held only behind an update in flight. */
  predicate ModelOk(m: Model) {
    && (!m.live ==> m == Disconnected(m))
    && (m.pending != map[] ==> m.inflight.Some?)
    && (m.pendingCell.Some? ==> m.pending != map[])
    && (forall k <- m.attrs :: SlotOk(m, k))
    && (forall k <- m.pending :: Stripped(m.pending[k]))
  }

  /** The slots of an attribute's buffers are empty, the outputs of an Output widget apart. */
  predicate SlotOk(m: Model, key: string)
    requires key in m.attrs
  {
    Stripped(m.attrs[key]) || (key == "outputs" && m.name == OUTPUT_MODEL)
  }

  ghost predicate ModelsOk(st: Store) {
    forall id <- st.models :: ModelOk(st.models[id])
  }

  ghost predicate CapturesOk(st: Store) {
    forall p <- st.capture :: st.capture[p] != [] && NoRepeats(st.capture[p]) && forall id <- st.capture[p] :: IsOutput(st, id)
  }

  /** A capture that waits has a flush in flight or a timer set, the models in `slack` apart. */
  ghost predicate WaitingOk(st: Store, slack: set<Id>) {
    forall id <- st.waiting ::
      IsOutput(st, id) && (id in slack || st.models[id].outInflight.Some? || st.models[id].flushScheduled)
  }

  predicate Touches(link: Link, id: Id) {
    link.source.model == id || link.target.model == id
  }

  /** `linkIndex` is the exact inverse of `links`. */
  ghost predicate LinksOk(st: Store) {
    && st.links.Keys <= st.models.Keys
    && IndexOk(st.links, st.linkIndex)
  }

  ghost predicate IndexOk(links: map<Id, Link>, index: map<Id, seq<Id>>) {
    && (forall end <- index :: index[end] != [] && NoRepeats(index[end]))
    && (forall end, l :: Indexed(index, end, l) <==> l in links && Touches(links[l], end))
  }

  predicate Indexed(index: map<Id, seq<Id>>, end: Id, l: Id) {
    end in index && l in index[end]
  }

  /** A capture that waits and can go out: no flush of its model is in flight. */
  predicate CanGo(st: Store, id: Id) {
    id in st.models && id in st.waiting && st.models[id].outInflight.None?
  }

  /** The representation invariant of the store. */
  ghost predicate Rep(st: Store, slack: set<Id>) {
    Traffic(st) && ModelsOk(st) && CapturesOk(st) && WaitingOk(st, slack) && LinksOk(st)
  }

  // ---- timers ----

  ghost predicate TimersOk(w: World, st: Store) {
    && (forall id <- st.models :: st.models[id].flushScheduled ==> FlushTimer(id) in Armed(w, st))
    && (forall id: Id, msg: MsgId | CheckTimer(id, msg) in Armed(w, st) :: msg < st.next && ForUpdate(st, id, msg))
  }

  /** If `msg` is still in flight, it is an update of `id`, not a flush. */
  predicate ForUpdate(st: Store, id: Id, msg: MsgId) {
    msg in st.inflight ==> st.inflight[msg] == id && id in st.models && st.models[id].outInflight != Some(msg)
  }

  // ---- identities ----

  predicate Proper(attrs: Attrs) {
    forall k <- attrs :: Stripped(attrs[k]) && attrs[k] != Entry(None, {})
  }

  predicate ChangeOk(c: Change) {
    Proper(c.attrs) && Elems(c.keys) == c.attrs.Keys
  }

  predicate EventOk(ev: Event) {
    match ev
    case Open(_, c) => ChangeOk(c)
    case Changed(_, c) => ChangeOk(c)
    case Echo(_, c, _) => ChangeOk(c)
    case _ => true
  }

  predicate IsOpenOf(ev: Event, id: Id) { ev.Open? && ev.id == id }

  predicate IsCloseOf(ev: Event, id: Id) { ev.Closed? && ev.id == id }

  predicate Quiet(events: seq<Event>, id: Id) {
    forall ev <- events :: !IsOpenOf(ev, id) && !IsCloseOf(ev, id)
  }

  ghost predicate EventsOk(w: World, st: Store) {
    && (forall ev <- w.fromKernel :: EventOk(ev) && (ev.Closed? ==> ev.id in w.known))
    && (forall ev <- w.fromKernel | ev.Echo? && ev.parent.Some? :: ev.parent.value < st.next)
    && (forall i | 0 <= i < |w.fromKernel| && w.fromKernel[i].Open? ::
          && w.fromKernel[i].id in w.known && !IsLive(st, w.fromKernel[i].id) && Unlogged(st.log, w.fromKernel[i].id)
          && forall j | i < j < |w.fromKernel| :: !IsOpenOf(w.fromKernel[j], w.fromKernel[i].id))
  }

  predicate WireOk(wire: seq<Outgoing>, known: set<Id>, next: MsgId) {
    && (forall m <- wire :: m.id < next && (m.body.Update? ==> m.comm in known))
    && (forall i, j | 0 <= i < j < |wire| :: wire[i].id < wire[j].id)
  }

  ghost predicate KernelOk(w: World, st: Store, id: Id)
    requires id in w.kernel
  {
    && id in w.known && Proper(w.kernel[id].attrs)
    && (forall ev <- w.fromKernel :: !IsCloseOf(ev, id))
    && (forall ev <- w.fromKernel | IsOpenOf(ev, id) :: Opened(ev.open).name == w.kernel[id].name)
    && (IsLive(st, id) ==> st.models[id].name == w.kernel[id].name)
  }

  ghost predicate Ids(w: World, st: Store) {
    && EventsOk(w, st)
    && WireOk(Wire(w, st), w.known, st.next)
    && (forall id | IsLive(st, id) :: id in w.known)
    && (forall id <- w.kernel :: KernelOk(w, st, id))
    && (forall item <- st.log :: item.model in w.known)
  }

  // ---- the mirror ----

  /** One attribute of one model as the store has it. */
  datatype View = View(live: bool, entry: Option<Entry>, exp: Option<MsgId>)

  function ViewOf(st: Store, id: Id, key: string): View {
    if !IsLive(st, id) then View(false, None, None)
    else
      var m := st.models[id];
      View(true, if key in m.attrs then Some(m.attrs[key]) else None,
           if key in m.expected then Some(m.expected[key]) else None)
  }

  /** What one message of the kernel makes of an attribute nothing is held for. */
  function Step(v: View, ev: Event, id: Id, key: string, isOut: bool): View {
    match ev
    case Open(x, c) =>
      if x != id then v else View(true, if key in c.attrs then Some(Norm(c.attrs[key])) else None, None)
    case Closed(x) => if x != id then v else View(false, None, None)
    case Changed(x, c) =>
      if x != id || !v.live || key !in c.attrs then v else v.(entry := Some(Norm(c.attrs[key])))
    case Echo(x, c, parent) =>
      if x != id || !v.live || key !in c.attrs || (v.exp.Some? && v.exp != parent) then v
      else
        var keep := v.exp.Some? && isOut && key == "outputs" &&
          (c.attrs[key].value.None? || OutputsMatch(c.attrs[key].value.value, EntryValue(v.entry)));
        View(true, if keep then v.entry else Some(Norm(c.attrs[key])), None)
    case _ => v
  }

  function EntryValue(e: Option<Entry>): Option<Value> {
    if e.Some? then e.value.value else None
  }

  function Fold(events: seq<Event>, v: View, id: Id, key: string, isOut: bool): View
    decreases |events|
  {
    if events == [] then v else Fold(events[1..], Step(v, events[0], id, key, isOut), id, key, isOut)
  }

  predicate Carries(m: Outgoing, id: Id, key: string) {
    m.comm == id && m.body.Update? && key in m.body.attrs
  }

  /** The last update on the wire that carries an attribute. */
  function LastCarrier(wire: seq<Outgoing>, id: Id, key: string): Option<MsgId> {
    if wire == [] then None
    else if Carries(wire[|wire| - 1], id, key) then Some(wire[|wire| - 1].id)
    else LastCarrier(wire[..|wire| - 1], id, key)
  }

  /** A change of the attribute is still to be sent. */
  predicate Dirty(st: Store, hand: Hand, id: Id, key: string, isOut: bool) {
    || (id in st.models && key in st.models[id].pending)
    || key in Held(hand, id)
    || (isOut && key == "outputs" && id in st.waiting)
  }

  /** The store's and the kernel's attribute are the same; an Output widget's outputs are compared
      as the kernel is sent them. */
  predicate Agree(isOut: bool, key: string, ours: Option<Entry>, kernels: Option<Entry>) {
    if isOut && key == "outputs" then OutputsForKernel(EntryValue(ours)) == OutputsForKernel(EntryValue(kernels))
    else ours == kernels
  }

  function IsOut(w: World, id: Id): bool {
    id in w.kernel && w.kernel[id].name == OUTPUT_MODEL
  }

  function KernelEntry(w: World, id: Id, key: string): Option<Entry> {
    if id in w.kernel && key in w.kernel[id].attrs then Some(w.kernel[id].attrs[key]) else None
  }

  /** After every message of the kernel is taken, an attribute is what the kernel has, unless a
      change of ours is still on its way there, or still to be sent. */
  ghost predicate InStep(w: World, st: Store, hand: Hand, id: Id, key: string) {
    var v := Fold(w.fromKernel, ViewOf(st, id, key), id, key, IsOut(w, id));
    var last := LastCarrier(Wire(w, st), id, key);
    && (v.live <==> id in w.kernel)
    && (id in w.kernel ==>
          && v.exp == last
          && (last.None? ==> Dirty(st, hand, id, key, IsOut(w, id)) || Agree(IsOut(w, id), key, v.entry, KernelEntry(w, id, key))))
  }

  ghost predicate Mirror(w: World, st: Store, hand: Hand) {
    forall id, key :: InStep(w, st, hand, id, key)
  }

  // ---- the log ----

  predicate Unlogged(log: seq<Item>, id: Id) {
    forall item <- log :: item.model != id
  }

  /** Every change queued for a model, overlaid in order. */
  function QueuedSum(log: seq<Item>, id: Id): Attrs {
    if log == [] then map[]
    else
      var last := log[|log| - 1];
      var sum := QueuedSum(log[..|log| - 1], id);
      if last.Queued? && last.model == id then Merge(sum, last.update) else sum
  }

  /** Every update sent for a model, overlaid in order. */
  function SentSum(log: seq<Item>, id: Id): Attrs {
    if log == [] then map[]
    else
      var last := log[|log| - 1];
      var sum := SentSum(log[..|log| - 1], id);
      if last.Updated? && last.model == id then sum + last.sent else sum
  }

  /** No change is lost: what was sent, and then what is held, is what was queued. */
  ghost predicate SumOk(st: Store, hand: Hand, id: Id) {
    IsLive(st, id) ==>
      QueuedSum(st.log, id) == SentSum(st.log, id) + Held(hand, id) + st.models[id].pending
  }

  /** Two flushes of a model the second of which is paced are OUTPUT_FLUSH apart. */
  predicate Cadence(log: seq<Item>) {
    forall i, j | 0 <= i < j < |log| && log[i].Flushed? && log[j].Flushed? && log[i].model == log[j].model && log[j].paced ::
      log[i].at + OUTPUT_FLUSH <= log[j].at
  }

  predicate SentBy(log: seq<Item>, id: Id, t: Option<Time>) {
    forall item <- log | item.Flushed? && item.model == id :: t.Some? && item.at <= t.value
  }

  ghost predicate LogOk(now: Time, st: Store, hand: Hand) {
    && (forall id :: SumOk(st, hand, id))
    && Cadence(st.log)
    && (forall item <- st.log | item.Flushed? :: item.at <= now)
    && (forall id | IsLive(st, id) :: SentBy(st.log, id, st.models[id].outSentAt))
  }

  // ---- all of it ----

  ghost predicate Good(w: World, st: Store, hand: Hand, slack: set<Id>) {
    && Rep(st, slack)
    && TimersOk(w, st)
    && Ids(w, st)
    && Mirror(w, st, hand)
    && LogOk(w.now, st, hand)
    && (hand.Hand? ==> IsLive(st, hand.id) && st.models[hand.id].pending == map[] && st.models[hand.id].pendingCell.None?)
  }
}
