/** The messages of the kernel, the frontend's requests and a restart keep what
    WidgetInvariants states. */
module WidgetEvents {
  import opened Json
  import opened Attributes
  import opened WidgetStore
  import opened WidgetInvariants
  import opened WidgetSteps
  import opened WidgetFlow
  import opened WidgetLinkSteps

  function Rest(w: World): World
    requires w.fromKernel != []
  {
    w.(fromKernel := w.fromKernel[1..])
  }

  // ---- taking a message ----

  lemma IdsRest(w: World, st: Store)
    requires Ids(w, st) && w.fromKernel != []
    ensures Ids(Rest(w), st)
  {
    forall id | id in w.kernel ensures KernelOk(Rest(w), st, id) { assert KernelOk(w, st, id); }
    forall i | 0 <= i < |Rest(w).fromKernel| && Rest(w).fromKernel[i].Open?
      ensures forall j | i < j < |Rest(w).fromKernel| :: !IsOpenOf(Rest(w).fromKernel[j], Rest(w).fromKernel[i].id)
    {
      assert Rest(w).fromKernel[i] == w.fromKernel[i + 1];
      forall j | i < j < |Rest(w).fromKernel| ensures !IsOpenOf(Rest(w).fromKernel[j], Rest(w).fromKernel[i].id) {
        assert Rest(w).fromKernel[j] == w.fromKernel[j + 1];
      }
    }
  }

  /** The store did with an attribute what the message says, or the attribute is dirty. */
  ghost predicate Follows(w: World, st: Store, st2: Store, id: Id, key: string)
    requires w.fromKernel != []
  {
    var s := Step(ViewOf(st, id, key), w.fromKernel[0], id, key, IsOut(w, id));
    var v := ViewOf(st2, id, key);
    && v.live == s.live && v.exp == s.exp
    && (id in w.kernel ==>
          && (v.entry == s.entry || Dirty(st2, Nothing, id, key, IsOut(w, id)))
          && (Dirty(st, Nothing, id, key, IsOut(w, id)) ==> Dirty(st2, Nothing, id, key, IsOut(w, id))))
  }

  lemma ConsumeMirror(w: World, st: Store, st2: Store)
    requires Mirror(w, st, Nothing) && w.fromKernel != [] && Wire(w, st2) == Wire(w, st)
    requires forall id, key :: Follows(w, st, st2, id, key)
    ensures Mirror(Rest(w), st2, Nothing)
  {
    forall id, key ensures InStep(Rest(w), st2, Nothing, id, key) {
      assert InStep(w, st, Nothing, id, key) && Follows(w, st, st2, id, key);
      var isOut := IsOut(w, id);
      var s, v := Step(ViewOf(st, id, key), w.fromKernel[0], id, key, isOut), ViewOf(st2, id, key);
      FoldKeepsLive(w.fromKernel[1..], s, v, id, key, isOut);
      FoldKeepsExp(w.fromKernel[1..], s, v, id, key, isOut);
      assert IsOut(Rest(w), id) == isOut && KernelEntry(Rest(w), id, key) == KernelEntry(w, id, key);
    }
  }

  /** A message the mirror does not read, or one for a model that is not connected. */
  lemma SkipGood(w: World, st: Store)
    requires Good(w, st, Nothing, {}) && w.fromKernel != []
    requires match w.fromKernel[0]
             case Open(_, _) => false
             case Changed(id, _) => !IsLive(st, id)
             case Echo(id, _, _) => !IsLive(st, id)
             case Closed(id) => !IsLive(st, id)
             case _ => true
    ensures Good(Rest(w), st, Nothing, {})
  {
    IdsRest(w, st);
    forall id, key ensures Follows(w, st, st, id, key) {}
    ConsumeMirror(w, st, st);
    assert Armed(Rest(w), st) == Armed(w, st);
  }

  // ---- one model takes new attributes and expectations ----

  function Reset1(st: Store, id: Id, attrs: Attrs, expected: map<string, MsgId>): Store
    requires id in st.models
  {
    st.(models := st.models[id := st.models[id].(attrs := attrs, expected := expected)])
  }

  lemma Reset1Rep(st: Store, id: Id, update: Attrs, expected: map<string, MsgId>)
    requires Rep(st, {}) && IsLive(st, id)
    ensures Rep(Reset1(st, id, Merge(st.models[id].attrs, update), expected), {})
  {
    var m := st.models[id];
    var st2 := Reset1(st, id, Merge(m.attrs, update), expected);
    assert ModelOk(m) && OneEach(m);
    MergeProper(m, update, m.name);
    assert st.inflight - {} == st.inflight;
    TrafficStep(st, st2, id, {}, false);
    RepStep(st, st2, {}, {}, id);
  }

  lemma Reset1Rest(w: World, st: Store, id: Id, attrs: Attrs, expected: map<string, MsgId>)
    requires Ids(w, st) && TimersOk(w, st) && LogOk(w.now, st, Nothing) && IsLive(st, id) && w.fromKernel != []
    ensures var st2 := Reset1(st, id, attrs, expected);
            Ids(Rest(w), st2) && TimersOk(Rest(w), st2) && LogOk(w.now, st2, Nothing)
  {
    var st2 := Reset1(st, id, attrs, expected);
    TimersStep(w, st, st2, id);
    assert Armed(Rest(w), st2) == Armed(w, st2);
    IdsStep(w, st, st2, id);
    IdsRest(w, st2);
    forall x ensures SumOk(st2, Nothing, x) { assert SumOk(st, Nothing, x); }
    forall x | IsLive(st2, x) ensures SentBy(st2.log, x, st2.models[x].outSentAt) {
      assert SentBy(st.log, x, st.models[x].outSentAt);
    }
  }

  // ---- kernel_update ----

  lemma TakeChangeMirror(w: World, st: Store, id: Id, c: Change)
    requires Mirror(w, st, Nothing) && IsLive(st, id) && w.fromKernel != [] && w.fromKernel[0] == Changed(id, c)
    ensures Mirror(Rest(w), SetAttrs(st, id, c.attrs), Nothing)
  {
    var st2 := SetAttrs(st, id, c.attrs);
    forall x, key ensures Follows(w, st, st2, x, key) {}
    ConsumeMirror(w, st, st2);
  }

  lemma KernelUpdateGood(w: World, st: Store, id: Id, c: Change, e: Env)
    requires Good(w, st, Nothing, {}) && w.fromKernel != [] && w.fromKernel[0] == Changed(id, c) && e.now == w.now
    ensures Good(Rest(w), KernelUpdate(st, id, c, e), Nothing, {})
  {
    if !IsLive(st, id) {
      SkipGood(w, st);
    } else {
      TakeChangeGood(w, st, id, c);
      var st0 := SetAttrs(st, id, c.attrs);
      NotifyGood(Rest(w), st0, id);
      var st1 := Emit(st0, Notify(id));
      var oldMsg, newMsg := StrOf(ValueOf(st.models[id].attrs, "msg_id")), StrOf(ValueOf(st1.models[id].attrs, "msg_id"));
      var moved := st.models[id].name == OUTPUT_MODEL && oldMsg != newMsg;
      if moved { CaptureChangedGood(Rest(w), st1, id, oldMsg, newMsg); }
      FollowChangeGood(Rest(w), if moved then CaptureChanged(st1, id, oldMsg, newMsg, e.now) else st1, id, ChangedKeys(st, id, c), e);
    }
  }

  lemma TakeChangeGood(w: World, st: Store, id: Id, c: Change)
    requires Good(w, st, Nothing, {}) && w.fromKernel != [] && w.fromKernel[0] == Changed(id, c) && IsLive(st, id)
    ensures Good(Rest(w), SetAttrs(st, id, c.attrs), Nothing, {})
  {
    assert SetAttrs(st, id, c.attrs) == Reset1(st, id, Merge(st.models[id].attrs, c.attrs), st.models[id].expected);
    Reset1Rep(st, id, c.attrs, st.models[id].expected);
    Reset1Rest(w, st, id, Merge(st.models[id].attrs, c.attrs), st.models[id].expected);
    TakeChangeMirror(w, st, id, c);
  }

  // ---- kernel_echo ----

  /** The model once an echo is taken. */
  function Echoed(st: Store, id: Id, c: Change, parent: Option<MsgId>): Store
    requires id in st.models
  {
    var m := st.models[id];
    Reset1(st, id, Merge(m.attrs, EchoKept(st, id, c, parent)), Answered(m.expected, c.attrs, parent))
  }

  lemma TakeEchoIs(st: Store, id: Id, c: Change, parent: Option<MsgId>)
    requires id in st.models
    ensures TakeEcho(st, id, c, parent) ==
            if EchoApplied(st, id, c, parent) == [] then Echoed(st, id, c, parent)
            else Emit(Echoed(st, id, c, parent), Notify(id))
  {
    if EchoApplied(st, id, c, parent) == [] {
      assert EchoKept(st, id, c, parent) == map[];
      assert Merge(st.models[id].attrs, map[]) == st.models[id].attrs;
    }
  }

  lemma EchoAppliedIff(st: Store, id: Id, c: Change, parent: Option<MsgId>, key: string)
    requires id in st.models && ChangeOk(c)
    ensures key in EchoApplied(st, id, c, parent) <==>
            key in c.attrs && EchoTakes(st, id, key, c.attrs, parent) && AttrOf(st.models[id], key) != c.attrs[key]
  {
    assert key in c.keys <==> key in Elems(c.keys);
  }

  lemma EchoedView(st: Store, id: Id, c: Change, parent: Option<MsgId>, key: string)
    requires IsLive(st, id) && ChangeOk(c)
    ensures var m := st.models[id];
            var v := ViewOf(Echoed(st, id, c, parent), id, key);
            && v.live
            && v.exp == (if key in m.expected && !(key in c.attrs && parent == Some(m.expected[key])) then Some(m.expected[key]) else None)
            && v.entry == (if key in c.attrs && EchoTakes(st, id, key, c.attrs, parent) && AttrOf(m, key) != c.attrs[key]
                           then Some(c.attrs[key])
                           else if key in m.attrs then Some(m.attrs[key]) else None)
  {
    EchoAppliedIff(st, id, c, parent, key);
    if key in c.attrs { assert Stripped(c.attrs[key]); }
  }

  lemma EchoFollows(w: World, st: Store, id: Id, c: Change, parent: Option<MsgId>, key: string)
    requires IsLive(st, id) && w.fromKernel != [] && w.fromKernel[0] == Echo(id, c, parent) && ChangeOk(c)
    requires id in w.kernel ==> st.models[id].name == w.kernel[id].name
    ensures Follows(w, st, Echoed(st, id, c, parent), id, key)
  {
    EchoedView(st, id, c, parent, key);
    if key in c.attrs { assert Norm(c.attrs[key]) == c.attrs[key] && c.attrs[key] != Entry(None, {}); }
  }

  lemma TakeEchoMirror(w: World, st: Store, id: Id, c: Change, parent: Option<MsgId>)
    requires Mirror(w, st, Nothing) && Ids(w, st) && IsLive(st, id)
    requires w.fromKernel != [] && w.fromKernel[0] == Echo(id, c, parent)
    ensures Mirror(Rest(w), Echoed(st, id, c, parent), Nothing)
  {
    var st2 := Echoed(st, id, c, parent);
    assert w.fromKernel[0] in w.fromKernel && EventOk(w.fromKernel[0]);
    if id in w.kernel { assert KernelOk(w, st, id); }
    forall x, key ensures Follows(w, st, st2, x, key) {
      if x == id { EchoFollows(w, st, id, c, parent, key); }
    }
    ConsumeMirror(w, st, st2);
  }

  lemma TakeEchoGood(w: World, st: Store, id: Id, c: Change, parent: Option<MsgId>)
    requires Good(w, st, Nothing, {}) && w.fromKernel != [] && w.fromKernel[0] == Echo(id, c, parent) && IsLive(st, id)
    ensures Good(Rest(w), TakeEcho(st, id, c, parent), Nothing, {})
  {
    var m := st.models[id];
    var kept, expected := EchoKept(st, id, c, parent), Answered(m.expected, c.attrs, parent);
    TakeEchoIs(st, id, c, parent);
    Reset1Rep(st, id, kept, expected);
    Reset1Rest(w, st, id, Merge(m.attrs, kept), expected);
    TakeEchoMirror(w, st, id, c, parent);
    if EchoApplied(st, id, c, parent) != [] {
      NotifyGood(Rest(w), Echoed(st, id, c, parent), id);
    }
  }

  lemma KernelEchoGood(w: World, st: Store, id: Id, c: Change, parent: Option<MsgId>, e: Env)
    requires Good(w, st, Nothing, {}) && w.fromKernel != [] && w.fromKernel[0] == Echo(id, c, parent) && e.now == w.now
    ensures Good(Rest(w), KernelEcho(st, id, c, parent, e), Nothing, {})
  {
    if !IsLive(st, id) {
      SkipGood(w, st);
    } else {
      TakeEchoGood(w, st, id, c, parent);
      FollowChangeGood(Rest(w), TakeEcho(st, id, c, parent), id, EchoApplied(st, id, c, parent), e);
    }
  }
}
