/** The buffers under an Output widget's outputs: when the store and the kernel have the same ones
    and when they do not. A flush carries none, and its echo is applied only when the lists differ
    (core/src/widgets.rs: send_outputs, kernel_echo). */
module WidgetOutputs {
  import opened Json
  import opened Attributes
  import opened WidgetStore
  import opened WidgetInvariants
  import opened WidgetSteps
  import opened WidgetFlow
  import opened WidgetLinkSteps
  import opened WidgetEchoes
  import opened WidgetEvents
  import opened WidgetLifecycle
  import opened WidgetLinks
  import opened WidgetSystem
  import OutputFold

  // ---- one flush ----

  /** A flush carries the list and no buffer, so the kernel that took it and echoes it holds none,
      and the store keeps the ones it has: the buffers of an Output widget's outputs may differ. */
  lemma FlushLeavesBuffers(st: Store, id: Id, now: Time, e: Env)
    requires IsLive(st, id) && st.models[id].name == OUTPUT_MODEL && id in st.waiting && st.models[id].outInflight.None?
    ensures var sent := SendOutputs(st, id, now, true);
            var msg := sent.fx[|sent.fx| - 1];
            && msg.Send? && msg.msg.id == st.next && msg.msg.body.Update?
            && msg.msg.body.attrs.Keys == {"outputs"} && msg.msg.body.attrs["outputs"].bufs == {}
            && var echo := Change(msg.msg.body.attrs, ["outputs"]);
               var after := KernelEcho(sent, id, echo, Some(st.next), e);
               id in after.models && after.models[id].attrs == st.models[id].attrs
  {
    var m := st.models[id];
    var sent := SendOutputs(st, id, now, true);
    var v := ValueOf(m.attrs, "outputs");
    var echo := Change(map["outputs" := Entry(Some(OutputsForKernel(v)), {})], ["outputs"]);
    assert sent.models[id].attrs == m.attrs && sent.models[id].expected["outputs"] == st.next;
    OutputsMatchIsEquality(OutputsForKernel(v), v);
    SentTwice(v);
    assert !EchoTakes(sent, id, "outputs", echo.attrs, Some(st.next));
    NothingApplied(sent, id, echo, Some(st.next), e);
  }

  /** An echo of the outputs that holds no JSON value is never applied while it is expected,
      whatever the kernel holds. */
  lemma BinaryOutputsKept(st: Store, id: Id, parent: MsgId, bufs: set<Buf>, e: Env)
    requires IsLive(st, id) && st.models[id].name == OUTPUT_MODEL
    requires "outputs" in st.models[id].expected && st.models[id].expected["outputs"] == parent
    ensures var after := KernelEcho(st, id, Change(map["outputs" := Entry(None, bufs)], ["outputs"]), Some(parent), e);
            id in after.models && after.models[id].attrs == st.models[id].attrs
  {
    var echo := Change(map["outputs" := Entry(None, bufs)], ["outputs"]);
    assert !EchoTakes(st, id, "outputs", echo.attrs, Some(parent));
    NothingApplied(st, id, echo, Some(parent), e);
  }

  // ---- one echo ----

  /** The echo of our flush, with nothing of ours on the way, leaves the store with the echo's
      buffers exactly when they were its own already or the lists differ in what is sent. */
  lemma EchoedBuffers(st: Store, id: Id, c: Change, parent: MsgId)
    requires IsOutput(st, id) && "outputs" in c.attrs && Elems(c.keys) == c.attrs.Keys
    requires "outputs" in st.models[id].expected && st.models[id].expected["outputs"] == parent
    requires "outputs" !in st.models[id].pending && id !in st.waiting
    ensures var st2 := TakeEcho(st, id, c, Some(parent));
            var echoed, was := c.attrs["outputs"], AttrOf(st.models[id], "outputs");
            && id in st2.models
            && (AttrOf(st2.models[id], "outputs").bufs == echoed.bufs <==>
                was.bufs == echoed.bufs || (echoed.value.Some? && !OutputsMatch(echoed.value.value, was.value)))
  {
    EchoedKey(st, id, c, Some(parent), "outputs");
    assert ValueOf(c.attrs, "outputs") == c.attrs["outputs"].value;
    assert ValueOf(st.models[id].attrs, "outputs") == AttrOf(st.models[id], "outputs").value;
  }

  /** For a widget that is no end of a link the whole call does just that. */
  lemma UnlinkedEchoedBuffers(st: Store, id: Id, c: Change, parent: MsgId, e: Env)
    requires IsOutput(st, id) && "outputs" in c.attrs && Elems(c.keys) == c.attrs.Keys && id !in st.linkIndex
    requires "outputs" in st.models[id].expected && st.models[id].expected["outputs"] == parent
    requires "outputs" !in st.models[id].pending && id !in st.waiting
    ensures var st2 := KernelEcho(st, id, c, Some(parent), e);
            var echoed, was := c.attrs["outputs"], AttrOf(st.models[id], "outputs");
            && id in st2.models
            && (AttrOf(st2.models[id], "outputs").bufs == echoed.bufs <==>
                was.bufs == echoed.bufs || (echoed.value.Some? && !OutputsMatch(echoed.value.value, was.value)))
  {
    UnlinkedEcho(st, id, c, Some(parent), e);
    EchoedBuffers(st, id, c, parent);
  }

  // ---- a run that ends with different buffers ----

  const OUT := "o"
  const REQUEST := "r"

  function Buffered(bytes: Bytes): Entry {
    Entry(Some(Arr([])), {Buf([Index(0)], bytes)})
  }

  /** An Output widget that opens capturing a request, with a buffer for an output it does not have. */
  function Opening(bytes: Bytes): Change {
    Change(map["_model_name" := Entry(Some(Str(OUTPUT_MODEL)), {}), "msg_id" := Entry(Some(Str(REQUEST)), {}),
               "outputs" := Buffered(bytes)],
           ["_model_name", "msg_id", "outputs"])
  }

  /** What the kernel echoes of the flush: the empty list, as it was sent. */
  function EmptyEcho(): Change {
    Change(map["outputs" := Entry(Some(Arr([])), {})], ["outputs"])
  }

  lemma NoBufsStripped(e: Entry)
    requires e.bufs == {}
    ensures Stripped(e)
  {
    assert Paths(e.bufs) == {};
    EmptiedByNone(e.value);
  }

  lemma OpeningOk(bytes: Bytes)
    ensures ChangeOk(Opening(bytes)) && ChangeOk(EmptyEcho())
  {
    var c := Opening(bytes);
    StrippedIffSlotsEmpty(Buffered(bytes));
    NoBufsStripped(c.attrs["_model_name"]);
    NoBufsStripped(c.attrs["msg_id"]);
    NoBufsStripped(EmptyEcho().attrs["outputs"]);
    assert Elems(c.keys) == c.attrs.Keys by {
      assert c.keys[0] == "_model_name" && c.keys[1] == "msg_id" && c.keys[2] == "outputs";
    }
    assert Elems(EmptyEcho().keys) == EmptyEcho().attrs.Keys by { assert EmptyEcho().keys[0] == "outputs"; }
  }

  lemma OpeningHas(bytes: Bytes)
    ensures var attrs := Opening(bytes).attrs;
            && StrOf(ValueOf(attrs, "_model_name")) == OUTPUT_MODEL && StrOf(ValueOf(attrs, "msg_id")) == REQUEST
            && StrOf(ValueOf(attrs, "_model_module")) == "" && StrOf(ValueOf(attrs, "_model_module_version")) == ""
            && "outputs" in attrs && attrs["outputs"] == Buffered(bytes)
  {
  }

  lemma MergedProper(attrs: Attrs)
    requires Proper(attrs)
    ensures Merge(map[], attrs) == attrs
  {
  }

  /** The widget before it captured anything. */
  predicate Plain(m: Model, bytes: Bytes) {
    && m == Blank(OUTPUT_MODEL, "", "", true).(attrs := m.attrs)
    && "outputs" in m.attrs && m.attrs["outputs"] == Buffered(bytes) && StrOf(ValueOf(m.attrs, "msg_id")) == REQUEST
  }

  lemma OpenedPlain(bytes: Bytes)
    ensures Plain(Opened(Opening(bytes)), bytes)
  {
    OpeningOk(bytes);
    OpeningHas(bytes);
    MergedProper(Opening(bytes).attrs);
  }

  function StoreWith(m: Model, waiting: set<Id>): Store {
    Empty().(models := map[OUT := m], capture := map[REQUEST := [OUT]], waiting := waiting)
  }

  function WorldWith(attrs: Attrs, events: seq<Event>): World {
    World([], events, map[OUT := KernelModel(OUTPUT_MODEL, attrs)], {OUT}, multiset{}, 0)
  }

  /** The model once its flush is on its way. */
  function Flushing(m: Model): Model {
    m.(expected := map["outputs" := 0], outInflight := Some(0), outSentAt := Some(0))
  }

  function StoreFlushing(m: Model): Store {
    StoreWith(Flushing(m), {}).(inflight := map[0 := OUT], ours := {0}, next := 1, log := [Flushed(OUT, 0, true)])
  }

  function StoreEchoed(m: Model): Store {
    StoreFlushing(m).(models := map[OUT := Flushing(m).(expected := map[])])
  }

  function FlushMessage(m: Model): Outgoing {
    Outgoing(OUT, 0, FlushBody(m), None)
  }

  // what the store does in it

  lemma StoreTakesOpen(bytes: Bytes, e: Env)
    ensures CommOpen(Empty(), OUT, Opening(bytes), e) == StoreWith(Opened(Opening(bytes)), {}).(fx := [Notify(OUT)])
  {
    var m := Opened(Opening(bytes));
    OpenedPlain(bytes);
    InsertIs(Empty(), OUT, m);
    assert Without([], OUT) == [];
    var st1 := Put(DropModel(Empty(), OUT), OUT, m);
    assert DropModel(Empty(), OUT) == Empty() && map[][OUT := m] == map[OUT := m];
    assert Without([], OUT) + [OUT] == [OUT];
    assert map[][REQUEST := [OUT]] == map[REQUEST := [OUT]];
    assert AddCapture(st1, REQUEST, OUT) == StoreWith(m, {});
    assert Insert(Empty(), OUT, m) == StoreWith(m, {}).(fx := [Notify(OUT)]);
    assert LinkOf(m).None?;
  }

  lemma StoreCaptures(m: Model, bytes: Bytes)
    requires Plain(m, bytes)
    ensures RouteOutput(StoreWith(m, {}), REQUEST, OutputFold.ClearOutput(false)) ==
            StoreWith(m.(flushScheduled := true), {OUT}).(fx := [Notify(OUT), FlushOutputsAfter(OUT, OUTPUT_FLUSH)])
  {
    var st := StoreWith(m, {});
    assert CapturingModel(st, REQUEST) == Some(OUT);
    assert RouteOutput(st, REQUEST, OutputFold.ClearOutput(false)) == Captures(st, OUT, [], false);
    assert m.attrs["outputs" := AttrOf(m, "outputs").(value := Some(Arr([])))] == m.attrs;
    assert SetOutputs(m, []).(clearPending := false) == m;
    assert st.models[OUT := m] == st.models && st.waiting + {OUT} == {OUT};
    assert map[OUT := m][OUT := m.(flushScheduled := true)] == map[OUT := m.(flushScheduled := true)];
    assert [] + [Notify(OUT)] + [FlushOutputsAfter(OUT, OUTPUT_FLUSH)] == [Notify(OUT), FlushOutputsAfter(OUT, OUTPUT_FLUSH)];
  }

  lemma StoreFlushes(m: Model, bytes: Bytes)
    requires Plain(m, bytes)
    ensures FlushOutputs(StoreWith(m.(flushScheduled := true), {OUT}), OUT, 0) == StoreFlushing(m).(fx := [Send(FlushMessage(m))])
  {
    var st := StoreWith(m.(flushScheduled := true), {OUT});
    assert m.(flushScheduled := true).(flushScheduled := false) == m;
    assert st.models[OUT := m] == map[OUT := m];
    var st1 := StoreWith(m, {OUT});
    assert FlushOutputs(st, OUT, 0) == PacedFlush(st1, OUT, 0);
    PacedFlushIs(st1, OUT, 0);
    assert st1.waiting - {OUT} == {};
    assert map[OUT := m][OUT := Flushing(m)] == map[OUT := Flushing(m)];
    assert m.expected["outputs" := 0] == map["outputs" := 0];
  }

  lemma StoreTakesEcho(m: Model, bytes: Bytes, e: Env)
    requires Plain(m, bytes)
    ensures KernelEcho(StoreFlushing(m), OUT, EmptyEcho(), Some(0), e) == StoreEchoed(m)
  {
    var st, c := StoreFlushing(m), EmptyEcho();
    OutputsMatchIsEquality(Arr([]), Some(Arr([])));
    assert !EchoTakes(st, OUT, "outputs", c.attrs, Some(0));
    assert forall k <- c.keys :: k == "outputs";
    assert forall k :: k !in EchoApplied(st, OUT, c, Some(0));
    EmptyList(EchoApplied(st, OUT, c, Some(0)));
    assert Answered(Flushing(m).expected, c.attrs, Some(0)) == map[];
    assert map[OUT := Flushing(m)][OUT := Flushing(m).(expected := map[])] == map[OUT := Flushing(m).(expected := map[])];
  }

  // the run

  lemma DoneIs(w: World, st: Store, effect: Effect)
    requires st.fx == [effect] && !effect.CheckInflightAfter?
    ensures Done(w, st) ==
            System(w.(toKernel := w.toKernel + (if effect.Send? then [effect.msg] else []),
                      timers := w.timers + if effect.FlushOutputsAfter? then multiset{FlushTimer(effect.model)} else multiset{}),
                   st.(fx := []))
  {
    SendsSnoc([], effect);
    assert [] + [effect] == [effect];
    assert Sends([]) == [] && TimersOf([]) == multiset{};
    assert TimersOf([effect]) == if effect.FlushOutputsAfter? then multiset{FlushTimer(effect.model)} else multiset{} by {
      assert [effect][..0] == [];
    }
  }

  lemma OpensFirst(c: Change)
    requires ChangeOk(c) && Opened(c).name == OUTPUT_MODEL
    ensures var s := System(World([], [], map[], {}, multiset{}, 0), Empty());
            && Enabled(s, KernelOpens(OUT, c))
            && Next(s, KernelOpens(OUT, c)) == System(WorldWith(c.attrs, [Open(OUT, c)]), Empty())
  {
    assert {} + {OUT} == {OUT} && [] + [Open(OUT, c)] == [Open(OUT, c)];
    assert map[][OUT := KernelModel(OUTPUT_MODEL, c.attrs)] == map[OUT := KernelModel(OUTPUT_MODEL, c.attrs)];
  }

  lemma WitnessOpens(bytes: Bytes)
    ensures ChangeOk(Opening(bytes)) && Opened(Opening(bytes)).name == OUTPUT_MODEL
  {
    OpeningOk(bytes);
    OpenedPlain(bytes);
  }

  /** The store takes the only message there is. */
  lemma DeliversOnly(w: World, st: Store, ev: Event)
    requires w.fromKernel == [ev]
    ensures Enabled(System(w, st), Delivers([]))
    ensures Next(System(w, st), Delivers([])) == Done(w.(fromKernel := []), Receive(st, ev, Env(w.now, [])))
  {
    assert [ev][1..] == [];
  }

  /** ... and does nothing but tell of a model. */
  lemma DeliversQuietly(w: World, st: Store, ev: Event, st2: Store, id: Id)
    requires w.fromKernel == [ev] && Receive(st, ev, Env(w.now, [])) == st2 && st2.fx == [Notify(id)]
    ensures Next(System(w, st), Delivers([])) == System(w.(fromKernel := []), st2.(fx := []))
  {
    DeliversOnly(w, st, ev);
    DoneIs(w.(fromKernel := []), st2, Notify(id));
  }

  lemma WitnessCaptures(attrs: Attrs, m: Model, bytes: Bytes)
    requires Plain(m, bytes)
    ensures var cleared := Output(REQUEST, OutputFold.ClearOutput(false));
            Next(System(WorldWith(attrs, [cleared]), StoreWith(m, {})), Delivers([])) ==
            System(WorldWith(attrs, []).(timers := multiset{FlushTimer(OUT)}), StoreWith(m.(flushScheduled := true), {OUT}))
  {
    var cleared := Output(REQUEST, OutputFold.ClearOutput(false));
    var arm := FlushOutputsAfter(OUT, OUTPUT_FLUSH);
    StoreCaptures(m, bytes);
    assert [cleared][1..] == [];
    SendsSnoc([Notify(OUT)], arm);
    SendsSnoc([], Notify(OUT));
    assert [] + [Notify(OUT)] == [Notify(OUT)] && [Notify(OUT)] + [arm] == [Notify(OUT), arm];
    assert Sends([]) == [] && TimersOf([]) == multiset{};
    assert TimersOf([arm]) == multiset{FlushTimer(OUT)} by { assert [arm][..0] == []; }
    assert TimersOf([Notify(OUT)]) == multiset{} by { assert [Notify(OUT)][..0] == []; }
  }

  lemma WitnessFires(attrs: Attrs, m: Model, bytes: Bytes)
    requires Plain(m, bytes)
    ensures var w := WorldWith(attrs, []).(timers := multiset{FlushTimer(OUT)});
            Next(System(w, StoreWith(m.(flushScheduled := true), {OUT})), Fires(FlushTimer(OUT), [])) ==
            System(WorldWith(attrs, []).(toKernel := [FlushMessage(m)]), StoreFlushing(m))
  {
    assert multiset{FlushTimer(OUT)} - multiset{FlushTimer(OUT)} == multiset{};
    StoreFlushes(m, bytes);
    DoneIs(WorldWith(attrs, []), StoreFlushing(m).(fx := [Send(FlushMessage(m))]), Send(FlushMessage(m)));
  }

  lemma WitnessAnswers(attrs: Attrs, m: Model, bytes: Bytes)
    requires Plain(m, bytes)
    ensures var s := System(WorldWith(attrs, []).(toKernel := [FlushMessage(m)]), StoreFlushing(m));
            && Enabled(s, KernelTakes(EmptyEcho()))
            && Next(s, KernelTakes(EmptyEcho())) ==
               System(WorldWith(attrs + EmptyEcho().attrs, [Echo(OUT, EmptyEcho(), Some(0))]), StoreFlushing(m))
  {
    OpeningOk(bytes);
    var w := WorldWith(attrs, []).(toKernel := [FlushMessage(m)]);
    assert Answers(w, FlushMessage(m)) && AnswerOk(w, FlushMessage(m), EmptyEcho());
    assert w.toKernel[1..] == [];
    assert w.kernel[OUT := w.kernel[OUT].(attrs := attrs + EmptyEcho().attrs)] ==
           map[OUT := KernelModel(OUTPUT_MODEL, attrs + EmptyEcho().attrs)];
  }

  lemma WitnessTakesEcho(attrs: Attrs, m: Model, bytes: Bytes)
    requires Plain(m, bytes)
    ensures Next(System(WorldWith(attrs, [Echo(OUT, EmptyEcho(), Some(0))]), StoreFlushing(m)), Delivers([])) ==
            System(WorldWith(attrs, []), StoreEchoed(m))
  {
    var echo := Echo(OUT, EmptyEcho(), Some(0));
    StoreTakesEcho(m, bytes, Env(0, []));
    assert [echo][1..] == [];
    assert Sends([]) == [] && TimersOf([]) == multiset{};
  }

  lemma Extended(states: seq<System>, actions: seq<Action>, a: Action, s: System)
    returns (states2: seq<System>, actions2: seq<Action>)
    requires Run(states, actions) && Enabled(states[|actions|], a) && s == Next(states[|actions|], a)
    ensures Run(states2, actions2) && states2[|actions2|] == s
  {
    states2, actions2 := states + [s], actions + [a];
    forall i | 0 <= i < |actions2| ensures Enabled(states2[i], actions2[i]) && states2[i + 1] == Next(states2[i], actions2[i]) {
      assert states2[i] == states[i];
      if i < |actions| { assert actions2[i] == actions[i] && states2[i + 1] == states[i + 1]; }
    }
  }

  lemma RunOpens(bytes: Bytes) returns (states: seq<System>, actions: seq<Action>)
    ensures Run(states, actions)
    ensures states[|actions|] == System(WorldWith(Opening(bytes).attrs, [Open(OUT, Opening(bytes))]), Empty())
  {
    var c := Opening(bytes);
    states, actions := [System(World([], [], map[], {}, multiset{}, 0), Empty())], [];
    WitnessOpens(bytes);
    OpensFirst(c);
    states, actions := Extended(states, actions, KernelOpens(OUT, c), System(WorldWith(c.attrs, [Open(OUT, c)]), Empty()));
  }

  lemma RunTakesOpen(bytes: Bytes) returns (states: seq<System>, actions: seq<Action>)
    ensures Run(states, actions)
    ensures states[|actions|] == System(WorldWith(Opening(bytes).attrs, []), StoreWith(Opened(Opening(bytes)), {}))
  {
    var c := Opening(bytes);
    states, actions := RunOpens(bytes);
    StoreTakesOpen(bytes, Env(0, []));
    DeliversQuietly(WorldWith(c.attrs, [Open(OUT, c)]), Empty(), Open(OUT, c), StoreWith(Opened(c), {}).(fx := [Notify(OUT)]), OUT);
    states, actions := Extended(states, actions, Delivers([]), System(WorldWith(c.attrs, []), StoreWith(Opened(c), {})));
  }

  /** The output is cleared by the request it captures. */
  lemma RunClears(bytes: Bytes) returns (states: seq<System>, actions: seq<Action>)
    ensures Run(states, actions)
    ensures var c, cleared := Opening(bytes), Output(REQUEST, OutputFold.ClearOutput(false));
            states[|actions|] == System(WorldWith(c.attrs, [cleared]), StoreWith(Opened(c), {}))
  {
    var c, cleared := Opening(bytes), Output(REQUEST, OutputFold.ClearOutput(false));
    states, actions := RunTakesOpen(bytes);
    assert [] + [cleared] == [cleared];
    states, actions := Extended(states, actions, KernelSays(cleared), System(WorldWith(c.attrs, [cleared]), StoreWith(Opened(c), {})));
  }

  lemma RunCaptures(bytes: Bytes) returns (states: seq<System>, actions: seq<Action>)
    ensures Run(states, actions)
    ensures var c := Opening(bytes);
            states[|actions|] == System(WorldWith(c.attrs, []).(timers := multiset{FlushTimer(OUT)}),
                                        StoreWith(Opened(c).(flushScheduled := true), {OUT}))
  {
    var c := Opening(bytes);
    OpenedPlain(bytes);
    states, actions := RunClears(bytes);
    WitnessCaptures(c.attrs, Opened(c), bytes);
    states, actions := Extended(states, actions, Delivers([]), Next(states[|actions|], Delivers([])));
  }

  lemma RunFlushes(bytes: Bytes) returns (states: seq<System>, actions: seq<Action>)
    ensures Run(states, actions)
    ensures var c := Opening(bytes);
            states[|actions|] == System(WorldWith(c.attrs, []).(toKernel := [FlushMessage(Opened(c))]), StoreFlushing(Opened(c)))
  {
    var c := Opening(bytes);
    OpenedPlain(bytes);
    states, actions := RunCaptures(bytes);
    WitnessFires(c.attrs, Opened(c), bytes);
    var fires := Fires(FlushTimer(OUT), []);
    states, actions := Extended(states, actions, fires, Next(states[|actions|], fires));
  }

  lemma RunAnswers(bytes: Bytes) returns (states: seq<System>, actions: seq<Action>)
    ensures Run(states, actions)
    ensures var c := Opening(bytes);
            states[|actions|] == System(WorldWith(c.attrs + EmptyEcho().attrs, [Echo(OUT, EmptyEcho(), Some(0))]),
                                        StoreFlushing(Opened(c)))
  {
    var c := Opening(bytes);
    OpenedPlain(bytes);
    states, actions := RunFlushes(bytes);
    WitnessAnswers(c.attrs, Opened(c), bytes);
    states, actions := Extended(states, actions, KernelTakes(EmptyEcho()), Next(states[|actions|], KernelTakes(EmptyEcho())));
  }

  lemma RunEnds(bytes: Bytes) returns (states: seq<System>, actions: seq<Action>)
    ensures Run(states, actions)
    ensures var c := Opening(bytes);
            states[|actions|] == System(WorldWith(c.attrs + EmptyEcho().attrs, []), StoreEchoed(Opened(c)))
  {
    var c := Opening(bytes);
    OpenedPlain(bytes);
    states, actions := RunAnswers(bytes);
    WitnessTakesEcho(c.attrs + EmptyEcho().attrs, Opened(c), bytes);
    states, actions := Extended(states, actions, Delivers([]), Next(states[|actions|], Delivers([])));
  }

  /** Store and kernel can come to rest with different buffers under an Output widget's outputs: the
      flush goes out without the store's, and the kernel, which has none then, echoes the list. */
  lemma RestsApart(bytes: Bytes) returns (states: seq<System>, actions: seq<Action>)
    ensures Run(states, actions) && AtRest(states[|actions|])
    ensures var s := states[|actions|];
            && IsOutput(s.st, OUT) && OUT in s.w.kernel && "outputs" in s.w.kernel[OUT].attrs
            && AttrOf(s.st.models[OUT], "outputs").bufs == {Buf([Index(0)], bytes)}
            && s.w.kernel[OUT].attrs["outputs"].bufs == {}
  {
    OpenedPlain(bytes);
    states, actions := RunEnds(bytes);
  }

  // ---- runs that put no buffer there ----

  /** No buffer is under the outputs. */
  predicate Bare(attrs: Attrs) {
    "outputs" in attrs ==> attrs["outputs"].bufs == {}
  }

  predicate LiveBare(st: Store, o: Id) {
    IsLive(st, o) ==> Bare(st.models[o].attrs)
  }

  /** No link writes the outputs of the model. */
  predicate Unwritten(st: Store, o: Id) {
    forall l <- st.links ::
      st.links[l].target != End(o, "outputs") && (st.links[l].twoWay ==> st.links[l].source != End(o, "outputs"))
  }

  lemma SameAttrsBare(st: Store, st2: Store, o: Id)
    requires LiveBare(st, o) && SameAttrs(st, st2)
    ensures LiveBare(st2, o)
  {
  }

  lemma SetAttrsBare(st: Store, id: Id, update: Attrs, o: Id)
    requires LiveBare(st, o) && id in st.models && (id == o ==> Bare(update))
    ensures LiveBare(SetAttrs(st, id, update), o)
  {
  }

  lemma LocalChangeBare(st: Store, id: Id, update: Attrs, cell: Option<string>, e: Env, o: Id)
    requires LiveBare(st, o) && id in st.models && (id == o ==> Bare(update))
    ensures LiveBare(LocalChange(st, id, update, cell, e), o) && LocalChange(st, id, update, cell, e).links == st.links
  {
    var st1 := SetAttrs(st, id, update);
    SetAttrsBare(st, id, update, o);
    QueueKeepsAttrs(st1, id, update, cell, e);
    SameAttrsBare(st1, Queue(st1, id, update, cell, e), o);
  }

  lemma BareValue(st: Store, o: Id)
    ensures LiveBare(st, o) <==> (IsLive(st, o) ==> ValueAt(st, End(o, "outputs")).bufs == {})
  {
  }

  lemma CopyAttrBare(st: Store, from: End, to: End, e: Env, o: Id)
    requires LiveBare(st, o) && to != End(o, "outputs")
    ensures LiveBare(CopyAttr(st, from, to, e).st, o) && CopyAttr(st, from, to, e).st.links == st.links
  {
    CopyAttrSets(st, from, to, e);
    BareValue(st, o);
    BareValue(CopyAttr(st, from, to, e).st, o);
  }

  lemma VisitOneBare(st: Store, at: End, id: Id, queue: seq<End>, steps: nat, e: Env, o: Id)
    requires LiveBare(st, o) && Unwritten(st, o)
    ensures var st2 := VisitOne(st, at, id, queue, steps, e).st; LiveBare(st2, o) && st2.links == st.links
  {
    VisitOneIs(st, at, id, queue, steps, e);
    var copy := CopyOf(st, at, id);
    if copy.Some? { CopyAttrBare(st, copy.value.from, copy.value.to, e, o); }
  }

  lemma {:induction false} VisitBare(st: Store, at: End, ids: seq<Id>, queue: seq<End>, steps: nat, e: Env, o: Id)
    requires LiveBare(st, o) && Unwritten(st, o) && steps <= LINK_STEP_LIMIT
    ensures var st2 := Visit(st, at, ids, queue, steps, e).st; LiveBare(st2, o) && st2.links == st.links
    decreases |ids|
  {
    if ids != [] {
      VisitIs(st, at, ids, queue, steps, e);
      VisitOneBare(st, at, ids[0], queue, steps, e, o);
      var v := VisitOne(st, at, ids[0], queue, steps, e);
      if !v.stopped { VisitBare(v.st, at, ids[1..], v.queue, v.steps, e, o); }
    }
  }

  lemma {:induction false} PropagateBare(st: Store, queue: seq<End>, steps: nat, e: Env, o: Id)
    requires LiveBare(st, o) && Unwritten(st, o) && steps <= LINK_STEP_LIMIT
    ensures var st2 := Propagate(st, queue, steps, e).st; LiveBare(st2, o) && st2.links == st.links
    decreases LINK_STEP_LIMIT - steps, |queue|
  {
    if queue != [] {
      VisitBare(st, queue[0], LinksAt(st, queue[0].model), queue[1..], steps, e, o);
      var v := Visit(st, queue[0], LinksAt(st, queue[0].model), queue[1..], steps, e);
      if !v.stopped { PropagateBare(v.st, v.queue, v.steps, e, o); }
    }
  }

  lemma ApplyLinkBare(st: Store, id: Id, e: Env, o: Id)
    requires LiveBare(st, o) && Unwritten(st, o)
    ensures LiveBare(ApplyLink(st, id, e), o) && ApplyLink(st, id, e).links == st.links
  {
    if id in st.links {
      var link := st.links[id];
      CopyAttrBare(st, link.source, link.target, e, o);
      PropagateBare(CopyAttr(st, link.source, link.target, e).st, [link.target], 0, e, o);
    }
  }

  lemma {:induction false} ApplyLinksBare(st: Store, ids: seq<Id>, e: Env, o: Id)
    requires LiveBare(st, o) && Unwritten(st, o)
    ensures LiveBare(ApplyLinks(st, ids, e), o) && ApplyLinks(st, ids, e).links == st.links
    decreases |ids|
  {
    if ids != [] {
      ApplyLinkBare(st, ids[0], e, o);
      ApplyLinksBare(ApplyLink(st, ids[0], e), ids[1..], e, o);
    }
  }

  // A call copies along the links there are when it ends, so these ask what the store after it has.

  lemma RelinkBare(st: Store, id: Id, e: Env, o: Id)
    requires LiveBare(st, o) && Unwritten(Relink(st, id, e), o)
    ensures LiveBare(Relink(st, id, e), o)
  {
    if id in st.models && LinkOf(st.models[id]).Some? {
      var st1 := IndexLink(st, id, LinkOf(st.models[id]).value);
      assert st1.models == st.models;
      ApplyLinkKeepsLinks(st1, id, e);
      ApplyLinkBare(st1, id, e, o);
    } else {
      assert UnindexLink(st, id).models == st.models;
    }
  }

  lemma FollowChangeBare(st: Store, id: Id, keys: seq<string>, e: Env, o: Id)
    requires LiveBare(st, o) && Unwritten(FollowChange(st, id, keys, e), o)
    ensures LiveBare(FollowChange(st, id, keys, e), o)
  {
    if keys != [] {
      var relinks := id in st.models && IsLinkModel(st.models[id]) && ("source" in keys || "target" in keys);
      var st1 := if relinks then Relink(st, id, e) else st;
      PropagateKeepsLinks(st1, EndsOf(id, keys), 0, e);
      if relinks { RelinkBare(st, id, e, o); }
      PropagateBare(st1, EndsOf(id, keys), 0, e, o);
    }
  }

  // ---- captures, sends and pacing ----

  lemma CapturesBare(st: Store, id: Id, outputs: seq<Value>, clearPending: bool, o: Id)
    requires LiveBare(st, o) && id in st.models
    ensures LiveBare(WidgetStore.Captures(st, id, outputs, clearPending), o)
  {
    var st2 := WidgetStore.Captures(st, id, outputs, clearPending);
    assert st2.models[id].attrs == SetOutputs(st.models[id], outputs).attrs;
  }

  lemma RouteOutputBare(st: Store, parent: string, ev: OutputFold.Event, o: Id)
    requires LiveBare(st, o)
    ensures LiveBare(RouteOutput(st, parent, ev), o)
  {
    var id := CapturingModel(st, parent);
    if id.Some? {
      var m := st.models[id.value];
      var f := OutputFold.Captured(OutputFold.Folded(OutputsOf(m), m.clearPending), ev);
      CapturesBare(st, id.value, f.outputs, f.clearPending, o);
    }
  }

  lemma {:induction false} UpdateDisplayBare(st: Store, order: seq<Id>, display: string, data: Value, metadata: Value, o: Id)
    requires LiveBare(st, o)
    ensures LiveBare(UpdateDisplay(st, order, display, data, metadata), o)
    decreases |order|
  {
    if order != [] {
      var st1 := UpdateDisplayOf(st, order[0], display, data, metadata);
      if IsLive(st, order[0]) {
        var m := st.models[order[0]];
        CapturesBare(st, order[0], Redisplayed(OutputsOf(m), display, data, metadata), m.clearPending, o);
      }
      UpdateDisplayBare(st1, order[1..], display, data, metadata, o);
    }
  }

  lemma TakeHeldBare(st: Store, id: Id, msg: MsgId, o: Id)
    requires LiveBare(st, o) && id in st.models
    ensures LiveBare(TakeHeld(st.(inflight := st.inflight - {msg}), id), o)
  {
  }

  lemma ReleaseBare(st: Store, id: Id, msg: MsgId, e: Env, o: Id)
    requires LiveBare(st, o)
    ensures LiveBare(Release(st, id, msg, e), o)
  {
    if id in st.models && st.models[id].inflight.Some? && st.models[id].inflight.value.id == msg && st.models[id].pending != map[] {
      var m, st1 := st.models[id], st.(inflight := st.inflight - {msg});
      TakeHeldBare(st, id, msg, o);
      SendUpdateKeepsAttrs(TakeHeld(st1, id), id, m.pending, m.pendingCell, e);
      SameAttrsBare(TakeHeld(st1, id), SendUpdate(TakeHeld(st1, id), id, m.pending, m.pendingCell, e), o);
    }
  }

  lemma PacedFlushBare(st: Store, id: Id, now: Time, o: Id)
    requires LiveBare(st, o)
    ensures LiveBare(PacedFlush(st, id, now), o)
  {
    PacedFlushKeepsAttrs(st, id, now);
    SameAttrsBare(st, PacedFlush(st, id, now), o);
  }

  lemma FlushOutputsBare(st: Store, id: Id, now: Time, o: Id)
    requires LiveBare(st, o)
    ensures LiveBare(FlushOutputs(st, id, now), o)
  {
    var st1 := if id in st.models then st.(models := st.models[id := st.models[id].(flushScheduled := false)]) else st;
    assert LiveBare(st1, o);
    PacedFlushBare(st1, id, now, o);
  }

  lemma OnIdleBare(st: Store, parent: MsgId, e: Env, o: Id)
    requires LiveBare(st, o)
    ensures LiveBare(OnIdle(st, parent, e), o)
  {
    if parent in st.inflight {
      var id := st.inflight[parent];
      if id in st.models && st.models[id].outInflight == Some(parent) {
        var st1 := Unpaced(st, id, false, parent);
        assert OnIdle(st, parent, e) == PacedFlush(st1, id, e.now);
        assert LiveBare(st1, o);
        PacedFlushBare(st1, id, e.now, o);
      } else {
        ReleaseBare(st.(ours := st.ours - {parent}), id, parent, e, o);
      }
    }
  }

  lemma FlushAllBare(st: Store, order: seq<Id>, now: Time, o: Id)
    requires LiveBare(st, o)
    ensures LiveBare(FlushAll(st, order, now), o)
  {
    FlushAllKeepsAttrs(st, order, now);
    SameAttrsBare(st, FlushAll(st, order, now), o);
  }

  // ---- the kernel's messages and the frontend ----

  lemma DropKeeps(st: Store, id: Id)
    ensures DropModel(st, id).models == st.models - {id}
  {
    if id in st.models { assert UnindexLink(Removed(st, id), id).models == Removed(st, id).models; }
  }

  lemma InsertBare(st: Store, id: Id, c: Change, o: Id)
    requires LiveBare(st, o) && (id == o ==> Bare(c.attrs))
    ensures LiveBare(Insert(st, id, Opened(c)), o)
  {
    DropKeeps(st, id);
    InsertIs(st, id, Opened(c));
    assert Insert(st, id, Opened(c)).models == (st.models - {id})[id := Opened(c)];
  }

  lemma CommOpenBare(st: Store, id: Id, c: Change, e: Env, o: Id)
    requires LiveBare(st, o) && (id == o ==> Bare(c.attrs)) && Unwritten(CommOpen(st, id, c, e), o)
    ensures LiveBare(CommOpen(st, id, c, e), o)
  {
    var m := Opened(c);
    var st1 := Insert(st, id, m);
    InsertBare(st, id, c, o);
    if LinkOf(m).Some? {
      var st2 := IndexLink(st1, id, LinkOf(m).value);
      assert st2.models == st1.models;
      ApplyLinkKeepsLinks(st2, id, e);
      ApplyLinkBare(st2, id, e, o);
    } else {
      ApplyLinksKeepLinks(st1, LinksAt(st1, id), e);
      ApplyLinksBare(st1, LinksAt(st1, id), e, o);
    }
  }

  lemma KernelUpdateBare(st: Store, id: Id, c: Change, e: Env, o: Id)
    requires LiveBare(st, o) && (id == o ==> Bare(c.attrs)) && Unwritten(KernelUpdate(st, id, c, e), o)
    ensures LiveBare(KernelUpdate(st, id, c, e), o)
  {
    if IsLive(st, id) {
      var st1 := Emit(SetAttrs(st, id, c.attrs), Notify(id));
      SetAttrsBare(st, id, c.attrs, o);
      var oldMsg, newMsg := StrOf(ValueOf(st.models[id].attrs, "msg_id")), StrOf(ValueOf(st1.models[id].attrs, "msg_id"));
      var moved := st.models[id].name == OUTPUT_MODEL && oldMsg != newMsg;
      CaptureChangedKeepsAttrs(st1, id, oldMsg, newMsg, e.now);
      SameAttrsBare(st1, CaptureChanged(st1, id, oldMsg, newMsg, e.now), o);
      FollowChangeBare(if moved then CaptureChanged(st1, id, oldMsg, newMsg, e.now) else st1, id, ChangedKeys(st, id, c), e, o);
    }
  }

  lemma KernelEchoBare(st: Store, id: Id, c: Change, parent: Option<MsgId>, e: Env, o: Id)
    requires LiveBare(st, o) && (id == o ==> Bare(c.attrs)) && Unwritten(KernelEcho(st, id, c, parent, e), o)
    ensures LiveBare(KernelEcho(st, id, c, parent, e), o)
  {
    if IsLive(st, id) {
      TakeEchoModels(st, id, c, parent);
      assert id == o ==> Bare(EchoKept(st, id, c, parent));
      assert Echoed(st, id, c, parent).models[id].attrs == Merge(st.models[id].attrs, EchoKept(st, id, c, parent));
      assert LiveBare(TakeEcho(st, id, c, parent), o);
      FollowChangeBare(TakeEcho(st, id, c, parent), id, EchoApplied(st, id, c, parent), e, o);
    }
  }

  lemma FrontendUpdateBare(st: Store, id: Id, c: Change, cell: Option<string>, e: Env, o: Id)
    requires LiveBare(st, o) && (id == o ==> Bare(c.attrs)) && Unwritten(FrontendUpdate(st, id, c, cell, e), o)
    ensures LiveBare(FrontendUpdate(st, id, c, cell, e), o)
  {
    if IsLive(st, id) && c.attrs != map[] {
      LocalChangeBare(st, id, c.attrs, cell, e, o);
      FollowChangeBare(LocalChange(st, id, c.attrs, cell, e), id, ChangedKeys(st, id, c), e, o);
    }
  }

  lemma FrontendCustomBare(st: Store, id: Id, content: Value, cell: Option<string>, e: Env, o: Id)
    requires LiveBare(st, o)
    ensures LiveBare(FrontendCustom(st, id, content, cell, e), o)
  {
    FlushAllBare(st, e.order, e.now, o);
  }

  /** A message of the kernel puts no buffer under the outputs of the model. */
  predicate EventBare(ev: Event, o: Id) {
    match ev
    case Open(id, c) => id == o ==> Bare(c.attrs)
    case Changed(id, c) => id == o ==> Bare(c.attrs)
    case Echo(id, c, _) => id == o ==> Bare(c.attrs)
    case _ => true
  }

  lemma ReceiveBare(st: Store, ev: Event, e: Env, o: Id)
    requires LiveBare(st, o) && EventBare(ev, o) && Unwritten(Receive(st, ev, e), o)
    ensures LiveBare(Receive(st, ev, e), o)
  {
    match ev
    case Open(id, c) => CommOpenBare(st, id, c, e, o);
    case OpenOther(id) =>
    case Changed(id, c) => KernelUpdateBare(st, id, c, e, o);
    case Echo(id, c, parent) => KernelEchoBare(st, id, c, parent, e, o);
    case CustomEvent(id) =>
    case Closed(id) => DropKeeps(st, id);
    case Idle(msg) => OnIdleBare(st, msg, e, o);
    case Output(request, output) => RouteOutputBare(st, request, output, o);
    case Display(display, data, metadata) => UpdateDisplayBare(st, e.order, display, data, metadata, o);
  }

  // ---- the runs ----

  /** An action puts no buffer under the outputs of the model: not as it opens, not by a change of
      the kernel or of a frontend, and not by the kernel's answer to an update of it. */
  predicate ActionBare(s: System, a: Action, o: Id) {
    match a
    case FrontendChanges(id, c, _, _) => id == o ==> Bare(c.attrs)
    case KernelTakes(answer) => s.w.toKernel != [] && s.w.toKernel[0].comm == o ==> Bare(answer.attrs)
    case KernelSets(id, c) => id == o ==> Bare(c.attrs)
    case OtherSets(id, c) => id == o ==> Bare(c.attrs)
    case KernelOpens(id, c) => id == o ==> Bare(c.attrs)
    case _ => true
  }

  ghost predicate BareInv(s: System, o: Id) {
    && LiveBare(s.st, o)
    && (o in s.w.kernel ==> Bare(s.w.kernel[o].attrs))
    && forall ev <- s.w.fromKernel :: EventBare(ev, o)
  }

  lemma StoreStepBare(s: System, a: Action, o: Id)
    requires Enabled(s, a) && OfStore(a) && BareInv(s, o) && ActionBare(s, a, o) && Unwritten(Next(s, a).st, o)
    ensures LiveBare(Next(s, a).st, o)
  {
    var w, st := s.w, s.st;
    match a
    case FrontendChanges(id, c, cell, order) => FrontendUpdateBare(st, id, c, cell, Env(w.now, order), o);
    case FrontendSends(id, content, cell, order) => FrontendCustomBare(st, id, content, cell, Env(w.now, order), o);
    case Executes(order) => FlushAllBare(st, order, w.now, o);
    case Delivers(order) =>
      assert w.fromKernel[0] in w.fromKernel;
      ReceiveBare(st, w.fromKernel[0], Env(w.now, order), o);
    case Fires(FlushTimer(id), _) => FlushOutputsBare(st, id, w.now, o);
    case Fires(CheckTimer(id, msg), order) => ReleaseBare(st, id, msg, Env(w.now, order), o);
  }

  lemma StoreStepWorld(s: System, a: Action, o: Id)
    requires Enabled(s, a) && OfStore(a) && BareInv(s, o)
    ensures var w2 := Next(s, a).w; w2.kernel == s.w.kernel && forall ev <- w2.fromKernel :: EventBare(ev, o)
  {
  }

  lemma WorldStepBare(s: System, a: Action, o: Id)
    requires Enabled(s, a) && !OfStore(a) && BareInv(s, o) && ActionBare(s, a, o)
    ensures BareInv(Next(s, a), o)
  {
  }

  lemma StepBare(s: System, a: Action, o: Id)
    requires Enabled(s, a) && BareInv(s, o) && ActionBare(s, a, o) && Unwritten(Next(s, a).st, o)
    ensures BareInv(Next(s, a), o)
  {
    if OfStore(a) {
      StoreStepBare(s, a, o);
      StoreStepWorld(s, a, o);
    } else {
      WorldStepBare(s, a, o);
    }
  }

  lemma {:induction false} BareAlways(states: seq<System>, actions: seq<Action>, n: nat, o: Id)
    requires Run(states, actions) && n < |states|
    requires forall i | 0 <= i < |actions| :: ActionBare(states[i], actions[i], o)
    requires forall i | 0 <= i < |states| :: Unwritten(states[i].st, o)
    ensures BareInv(states[n], o)
  {
    if n > 0 {
      BareAlways(states, actions, n - 1, o);
      assert ActionBare(states[n - 1], actions[n - 1], o) && Unwritten(states[n].st, o);
      StepBare(states[n - 1], actions[n - 1], o);
    }
  }

  /** Convergence of a whole Output widget. When nobody puts a buffer under its outputs and no link
      writes them, the slots there are as empty as any other's all along, and at rest neither side
      has a buffer there and the lists are the same, transient apart. */
  lemma OutputsConverge(states: seq<System>, actions: seq<Action>, n: nat, o: Id)
    requires Run(states, actions) && n < |states|
    requires forall i | 0 <= i < |actions| :: ActionBare(states[i], actions[i], o)
    requires forall i | 0 <= i < |states| :: Unwritten(states[i].st, o)
    ensures IsLive(states[n].st, o) ==> Stripped(AttrOf(states[n].st.models[o], "outputs"))
    ensures AtRest(states[n]) && o in states[n].w.kernel && states[n].w.kernel[o].name == OUTPUT_MODEL ==>
              IsLive(states[n].st, o) &&
              var ours, kernels := StoreEntry(states[n].st, o, "outputs"), KernelEntry(states[n].w, o, "outputs");
              && (ours.Some? ==> ours.value.bufs == {}) && (kernels.Some? ==> kernels.value.bufs == {})
              && OutputsForKernel(EntryValue(ours)) == OutputsForKernel(EntryValue(kernels))
  {
    BareAlways(states, actions, n, o);
    if IsLive(states[n].st, o) { NoBufsStripped(AttrOf(states[n].st.models[o], "outputs")); }
    if AtRest(states[n]) { Converges(states, actions, n, o, "outputs"); }
  }
}
