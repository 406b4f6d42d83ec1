/** What an echo of the kernel does to a model: which of its attributes it changes, which
    expectations it ends, and whether the frontend is told (core/src/widgets.rs: kernel_echo). */
module WidgetEchoes {
  import opened Json
  import opened Attributes
  import opened WidgetStore
  import opened WidgetInvariants
  import opened WidgetEvents
  import opened WidgetLinks

  lemma FirstIn(keys: seq<string>)
    ensures keys == [] || keys[0] in keys
  {
  }

  lemma EmptyList(keys: seq<string>)
    requires forall k :: k !in keys
    ensures keys == []
  {
    FirstIn(keys);
  }

  lemma NothingApplied(st: Store, id: Id, c: Change, parent: Option<MsgId>, e: Env)
    requires IsLive(st, id) && forall k <- c.keys :: !EchoChanges(st, id, k, c.attrs, parent)
    ensures var after := KernelEcho(st, id, c, parent, e);
            id in after.models && after.models[id].attrs == st.models[id].attrs
  {
    FirstIn(EchoApplied(st, id, c, parent));
  }

  lemma TakeEchoModels(st: Store, id: Id, c: Change, parent: Option<MsgId>)
    requires id in st.models
    ensures TakeEcho(st, id, c, parent).models == Echoed(st, id, c, parent).models
  {
    TakeEchoIs(st, id, c, parent);
  }

  lemma KeptIff(st: Store, id: Id, c: Change, parent: Option<MsgId>, key: string)
    requires id in st.models && key in c.attrs && Elems(c.keys) == c.attrs.Keys
    ensures key in EchoKept(st, id, c, parent) <==> EchoChanges(st, id, key, c.attrs, parent)
  {
    assert key in c.keys by { assert key in Elems(c.keys); }
  }

  lemma EchoedKey(st: Store, id: Id, c: Change, parent: Option<MsgId>, key: string)
    requires id in st.models && key in c.attrs && Elems(c.keys) == c.attrs.Keys
    ensures var st2 := TakeEcho(st, id, c, parent);
            && id in st2.models
            && AttrOf(st2.models[id], key) ==
               if EchoChanges(st, id, key, c.attrs, parent) then Norm(c.attrs[key]) else AttrOf(st.models[id], key)
  {
    TakeEchoModels(st, id, c, parent);
    KeptIff(st, id, c, parent, key);
    assert Echoed(st, id, c, parent).models[id].attrs == Merge(st.models[id].attrs, EchoKept(st, id, c, parent));
  }

  lemma TakeEchoKeeps(st: Store, id: Id, c: Change, parent: Option<MsgId>)
    requires id in st.models
    ensures var st2 := TakeEcho(st, id, c, parent);
            id in st2.models && st2.models[id].name == st.models[id].name && st2.linkIndex == st.linkIndex
  {
    TakeEchoIs(st, id, c, parent);
  }

  lemma NothingFollows(st: Store, id: Id, keys: seq<string>, e: Env)
    requires id in st.models && !IsLinkModel(st.models[id]) && id !in st.linkIndex
    ensures FollowChange(st, id, keys, e) == st
  {
  }

  lemma UnlinkedEcho(st: Store, id: Id, c: Change, parent: Option<MsgId>, e: Env)
    requires IsLive(st, id) && id !in st.linkIndex && !IsLinkModel(st.models[id])
    ensures KernelEcho(st, id, c, parent, e) == TakeEcho(st, id, c, parent)
  {
    TakeEchoKeeps(st, id, c, parent);
    NothingFollows(TakeEcho(st, id, c, parent), id, EchoApplied(st, id, c, parent), e);
  }

  // ---- key by key ----

  /** The attribute and its expectation are as they were. */
  predicate Untouched(m: Model, m2: Model, key: string) {
    AttrOf(m2, key) == AttrOf(m, key) && (key in m2.expected <==> key in m.expected)
    && (key in m.expected ==> m2.expected[key] == m.expected[key])
  }

  /** The kernel echoes the outputs as the store would send them, or not as JSON. */
  predicate PlainOutputs(echoed: Entry, ours: Entry) {
    echoed.value.None? ||
    (echoed.value.value.Arr? && OutputsForKernel(echoed.value) == OutputsForKernel(ours.value))
  }

  /** What one key of an echo comes to. An echo of a message that is not the last to carry the key
      is old and does nothing. Any other ends the expectation, and the key takes the kernel's value,
      unless a newer change of it is held; the outputs of an Output widget take it only when no
      capture waits and the lists differ. What nobody sent is taken. */
  predicate KeyTaken(m: Model, m2: Model, waits: bool, c: Change, parent: Option<MsgId>, key: string) {
    if key !in c.attrs || (key in m.expected && parent != Some(m.expected[key])) then Untouched(m, m2, key)
    else
      var isOutputs := m.name == OUTPUT_MODEL && key == "outputs";
      && key !in m2.expected
      && if key in m.expected && key in m.pending then AttrOf(m2, key) == AttrOf(m, key)
         else if key in m.expected && isOutputs && (waits || PlainOutputs(c.attrs[key], AttrOf(m, key)))
           then AttrOf(m2, key) == AttrOf(m, key)
         else if isOutputs && AttrOf(m, key) == c.attrs[key] then AttrOf(m2, key) == AttrOf(m, key)
         else AttrOf(m2, key) == Norm(c.attrs[key])
  }

  lemma EntryOfKey(m: Model, c: Change, key: string)
    requires key in c.attrs
    ensures ValueOf(c.attrs, key) == c.attrs[key].value && ValueOf(m.attrs, key) == AttrOf(m, key).value
  {
  }

  lemma SameIsStripped(m: Model, c: Change, key: string)
    requires ModelOk(m) && key in c.attrs && AttrOf(m, key) == c.attrs[key] && !(m.name == OUTPUT_MODEL && key == "outputs")
    ensures Norm(c.attrs[key]) == c.attrs[key]
  {
    if key in m.attrs { assert SlotOk(m, key); } else { assert Norm(Entry(None, {})) == Entry(None, {}); }
  }

  lemma KeyIsTaken(st: Store, id: Id, c: Change, parent: Option<MsgId>, key: string)
    requires id in st.models && ModelOk(st.models[id]) && Elems(c.keys) == c.attrs.Keys
    ensures var st2 := TakeEcho(st, id, c, parent);
            id in st2.models && KeyTaken(st.models[id], st2.models[id], id in st.waiting, c, parent, key)
  {
    var m := st.models[id];
    TakeEchoModels(st, id, c, parent);
    if key in c.attrs {
      EchoedKey(st, id, c, parent, key);
      EntryOfKey(m, c, key);
      if c.attrs[key].value.Some? { OutputsMatchIsEquality(c.attrs[key].value.value, AttrOf(m, key).value); }
      if AttrOf(m, key) == c.attrs[key] && !(m.name == OUTPUT_MODEL && key == "outputs") { SameIsStripped(m, c, key); }
    }
  }

  /** Only the attributes and the expectations of the model changed, as far as the store goes. */
  ghost predicate OnlyEchoed(st: Store, st2: Store, id: Id)
    requires id in st.models
  {
    && st2 == st.(models := st2.models, fx := st2.fx)
    && st2.models.Keys == st.models.Keys && (forall x <- st.models | x != id :: st2.models[x] == st.models[x])
    && st2.models[id] == st.models[id].(attrs := st2.models[id].attrs, expected := st2.models[id].expected)
  }

  lemma TakeEchoOnly(st: Store, id: Id, c: Change, parent: Option<MsgId>)
    requires id in st.models
    ensures OnlyEchoed(st, TakeEcho(st, id, c, parent), id)
  {
    TakeEchoIs(st, id, c, parent);
  }

  /** kernel_echo, for a model no link ends at: what every key comes to, and nothing else changes. */
  lemma EchoTaken(st: Store, id: Id, c: Change, parent: Option<MsgId>, e: Env)
    requires IsLive(st, id) && ModelOk(st.models[id]) && id !in st.linkIndex && !IsLinkModel(st.models[id])
    requires Elems(c.keys) == c.attrs.Keys
    ensures var st2 := KernelEcho(st, id, c, parent, e);
            && OnlyEchoed(st, st2, id)
            && forall key :: KeyTaken(st.models[id], st2.models[id], id in st.waiting, c, parent, key)
  {
    UnlinkedEcho(st, id, c, parent, e);
    TakeEchoOnly(st, id, c, parent);
    forall key ensures KeyTaken(st.models[id], TakeEcho(st, id, c, parent).models[id], id in st.waiting, c, parent, key) {
      KeyIsTaken(st, id, c, parent, key);
    }
  }

  // ---- telling the frontend ----

  /** The key is let in and does not say what the store has. */
  predicate TellsNew(m: Model, m2: Model, c: Change, key: string) {
    && key in c.attrs && key !in m2.expected && (key in m.expected ==> key !in m.pending)
    && AttrOf(m, key) != c.attrs[key] && AttrOf(m2, key) == Norm(c.attrs[key])
  }

  lemma NotifiedBy(st: Store, id: Id, c: Change, parent: Option<MsgId>)
    requires id in st.models && Elems(c.keys) == c.attrs.Keys
    ensures TakeEcho(st, id, c, parent).fx ==
            st.fx + if exists key <- c.attrs :: EchoChanges(st, id, key, c.attrs, parent) then [Notify(id)] else []
  {
    var applied := EchoApplied(st, id, c, parent);
    TakeEchoIs(st, id, c, parent);
    FirstIn(applied);
    if applied != [] { assert applied[0] in c.keys && applied[0] in Elems(c.keys); }
    forall key | key in c.attrs && EchoChanges(st, id, key, c.attrs, parent) ensures key in applied {
      assert key in Elems(c.keys);
    }
  }

  lemma ChangedTellsNew(st: Store, id: Id, c: Change, parent: Option<MsgId>, key: string)
    requires id in st.models && Elems(c.keys) == c.attrs.Keys && key in c.attrs
    ensures var st2 := TakeEcho(st, id, c, parent);
            && id in st2.models
            && (EchoChanges(st, id, key, c.attrs, parent) ==> TellsNew(st.models[id], st2.models[id], c, key))
            && (AttrOf(st2.models[id], key) != AttrOf(st.models[id], key) ==> EchoChanges(st, id, key, c.attrs, parent))
  {
    TakeEchoModels(st, id, c, parent);
    EchoedKey(st, id, c, parent, key);
  }

  /** The frontend is told of the model when a value changed, and only for an attribute let in that
      differs; when the buffers' slots in the echo are empty, exactly when a value changed. */
  lemma EchoTells(st: Store, id: Id, c: Change, parent: Option<MsgId>, e: Env)
    requires IsLive(st, id) && id !in st.linkIndex && !IsLinkModel(st.models[id]) && Elems(c.keys) == c.attrs.Keys
    ensures var m, st2 := st.models[id], KernelEcho(st, id, c, parent, e);
            && id in st2.models && (st2.fx == st.fx || st2.fx == st.fx + [Notify(id)])
            && ((exists key <- c.attrs :: AttrOf(st2.models[id], key) != AttrOf(m, key)) ==> st2.fx != st.fx)
            && (st2.fx != st.fx ==> exists key <- c.attrs :: TellsNew(m, st2.models[id], c, key))
            && ((forall key <- c.attrs :: Stripped(c.attrs[key])) ==>
                  (st2.fx != st.fx <==> exists key <- c.attrs :: AttrOf(st2.models[id], key) != AttrOf(m, key)))
  {
    var m, st2 := st.models[id], TakeEcho(st, id, c, parent);
    UnlinkedEcho(st, id, c, parent, e);
    TakeEchoKeeps(st, id, c, parent);
    NotifiedBy(st, id, c, parent);
    forall key | key in c.attrs
      ensures EchoChanges(st, id, key, c.attrs, parent) ==> TellsNew(m, st2.models[id], c, key)
      ensures AttrOf(st2.models[id], key) != AttrOf(m, key) ==> EchoChanges(st, id, key, c.attrs, parent)
    {
      ChangedTellsNew(st, id, c, parent, key);
    }
  }

  // ---- an echo that goes on along links ----

  lemma AppliedOne(st: Store, at: End, c: Change, parent: Option<MsgId>)
    requires at.model in st.models && c.attrs.Keys == {at.attr} && c.keys == [at.attr]
    requires EchoChanges(st, at.model, at.attr, c.attrs, parent)
    ensures EchoApplied(st, at.model, c, parent) == [at.attr]
    ensures EchoKept(st, at.model, c, parent) == map[at.attr := c.attrs[at.attr]]
  {
    assert c.keys[..0] == [] && ChangedBy(st, at.model, [], c.attrs, parent) == [];
    assert EchoApplied(st, at.model, c, parent) == [] + [at.attr];
  }

  lemma OneWrites(st: Store, st2: Store, at: End, v: Entry)
    requires at.model in st.models && OnlyEchoed(st, st2, at.model)
    requires st2.models[at.model].attrs == st.models[at.model].attrs[at.attr := v]
    ensures Writes(st, st2, at, v)
  {
  }

  lemma TakenAttrs(st: Store, id: Id, c: Change, parent: Option<MsgId>)
    requires id in st.models
    ensures var st2 := TakeEcho(st, id, c, parent);
            id in st2.models && st2.models[id].attrs == Merge(st.models[id].attrs, EchoKept(st, id, c, parent))
  {
    TakeEchoModels(st, id, c, parent);
  }

  lemma MergeOne(attrs: Attrs, key: string, v: Entry)
    ensures Merge(attrs, map[key := v]) == attrs[key := Norm(v)]
  {
  }

  lemma EchoWrites(st: Store, at: End, c: Change, parent: Option<MsgId>, v: Entry)
    requires at.model in st.models && EchoKept(st, at.model, c, parent) == map[at.attr := v]
    ensures Writes(st, TakeEcho(st, at.model, c, parent), at, Norm(v))
  {
    TakeEchoOnly(st, at.model, c, parent);
    TakenAttrs(st, at.model, c, parent);
    MergeOne(st.models[at.model].attrs, at.attr, v);
    OneWrites(st, TakeEcho(st, at.model, c, parent), at, Norm(v));
  }

  lemma EchoFollowed(st: Store, st1: Store, at: End, e: Env)
    requires at.model in st.models && at.model in st1.models && st1.linkIndex == st.linkIndex
    requires IsLinkModel(st1.models[at.model]) ==> at.attr != "source" && at.attr != "target"
    ensures FollowChange(st1, at.model, [at.attr], e) ==
            if at.model in st.linkIndex then Propagate(st1, [at], 0, e).st else st1
  {
    assert EndsOf(at.model, [at.attr]) == [at];
  }

  /** An echo that changes an attribute is a change like any other: when the call is over everything
      the links lead to has the value, and nothing else changed. */
  lemma EchoChangeSettles(st: Store, at: End, c: Change, parent: Option<MsgId>, e: Env) returns (changed: seq<End>)
    requires Rep(st, {}) && 2 * |st.links| <= LINK_STEP_LIMIT && OneChange(st, at, c)
    requires EchoChanges(st, at.model, at.attr, c.attrs, parent)
    ensures Settles(st, KernelEcho(st, at.model, c, parent, e), at, Norm(c.attrs[at.attr]), changed)
  {
    var st1 := TakeEcho(st, at.model, c, parent);
    AppliedOne(st, at, c, parent);
    EchoWrites(st, at, c, parent, c.attrs[at.attr]);
    TakeEchoKeeps(st, at.model, c, parent);
    NormNoVoid(c.attrs[at.attr]);
    EchoFollowed(st, st1, at, e);
    if at.model in st.linkIndex {
      changed := FollowSettles(st, st1, at, Norm(c.attrs[at.attr]), e);
    } else {
      NothingToFollow(st, st1, at, Norm(c.attrs[at.attr]));
      changed := [at];
    }
  }
}
