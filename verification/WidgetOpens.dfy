/** What opening a model brings about, and what a link model is: its ends, read out of its source and
    target, and the copy that it makes (core/src/widgets.rs: comm_open, link_of, relink). */
module WidgetOpens {
  import opened Json
  import opened Attributes
  import opened WidgetStore
  import opened WidgetInvariants
  import opened WidgetLinkSteps
  import opened WidgetLifecycle
  import opened WidgetLinks
  import opened WidgetRep
  import WidgetEffects
  import WidgetEvents

  // ---- what a link model says ----

  /** `["IPY_MODEL_<model>", attr]`, and maybe more after it. */
  predicate SaysEnd(v: Option<Value>, end: End) {
    && v.Some?
    && Follow(v.value, [Index(0)]) == Some(Str(MODEL_REF + end.model))
    && Follow(v.value, [Index(1)]) == Some(Str(end.attr))
  }

  lemma EndIsRead(v: Option<Value>, end: End)
    ensures LinkEndOf(v) == Some(end) <==> SaysEnd(v, end)
  {
    if v.Some? && v.value.Arr? {
      var items := v.value.items;
      assert [Index(0)][1..] == [] && [Index(1)][1..] == [];
      assert Follow(v.value, [Index(0)]) == if 0 < |items| then Some(items[0]) else None;
      assert Follow(v.value, [Index(1)]) == if 1 < |items| then Some(items[1]) else None;
      if |items| > 0 && items[0].Str? { RefIs(items[0].s, end.model); }
    }
  }

  lemma RefIs(s: string, id: Id)
    ensures RefOf(s) == Some(id) <==> s == MODEL_REF + id
  {
    if RefOf(s) == Some(id) { assert s == MODEL_REF + s[|MODEL_REF|..]; }
    if s == MODEL_REF + id { assert s[|MODEL_REF|..] == id; }
  }

  /** A model of a link class that says its two ends. */
  predicate SaysLink(m: Model, link: Link) {
    && m.name == (if link.twoWay then "LinkModel" else "DirectionalLinkModel")
    && SaysEnd(ValueOf(m.attrs, "source"), link.source) && SaysEnd(ValueOf(m.attrs, "target"), link.target)
  }

  lemma LinkIsRead(m: Model, link: Link)
    ensures LinkOf(m) == Some(link) <==> SaysLink(m, link)
  {
    EndIsRead(ValueOf(m.attrs, "source"), link.source);
    EndIsRead(ValueOf(m.attrs, "target"), link.target);
  }

  lemma NoLinkRead(m: Model)
    ensures LinkOf(m).None? <==> forall link :: !SaysLink(m, link)
  {
    if LinkOf(m).Some? { LinkIsRead(m, LinkOf(m).value); }
    forall link | SaysLink(m, link) ensures LinkOf(m).Some? { LinkIsRead(m, link); }
  }

  // ---- comm_open ----

  /** The text of an attribute of a message, empty when there is none. */
  predicate ReadsText(attrs: Attrs, key: string, text: string) {
    match ValueOf(attrs, key)
    case Some(Str(s)) => text == s
    case _ => text == ""
  }

  /** A model as it opens: named by its state, connected, with every attribute of the message, its
      buffers' slots empty, and nothing on the way. */
  predicate OpensAs(c: Change, m: Model) {
    && ReadsText(c.attrs, "_model_name", m.name) && ReadsText(c.attrs, "_model_module", m.moduleName)
    && ReadsText(c.attrs, "_model_module_version", m.version)
    && m.live && m.attrs.Keys == c.attrs.Keys && (forall k <- c.attrs :: m.attrs[k] == Norm(c.attrs[k]))
    && m.expected == map[] && m.inflight.None? && m.pending == map[] && m.pendingCell.None?
    && !m.clearPending && !m.flushScheduled && m.outInflight.None? && m.outSentAt.None?
  }

  lemma OpenedIs(c: Change)
    ensures OpensAs(c, Opened(c))
  {
  }

  /** The new model is in its place, whatever was there before, and captures if it is an Output
      widget with a msg_id; no other model changes. */
  ghost predicate Placed(st: Store, st2: Store, id: Id, c: Change) {
    && st2.models.Keys == st.models.Keys + {id} && OpensAs(c, st2.models[id])
    && (forall x <- st.models | x != id :: st2.models[x] == st.models[x])
    && (forall msg | ReadsText(st2.models[id].attrs, "msg_id", msg) && msg != "" && st2.models[id].name == OUTPUT_MODEL ::
          CapturingModel(st2, msg) == Some(id))
    && id !in st2.waiting
  }

  lemma InsertModels(st: Store, id: Id, m: Model)
    requires Rep(st, {})
    ensures var st2 := Insert(st, id, m);
            && st2.models == (st.models - {id})[id := m] && id !in st2.waiting && st2.links == st.links - {id}
            && st2.linkIndex == DropModel(st, id).linkIndex
  {
    InsertIs(st, id, m);
    WidgetEffects.DropForgets(st, id);
  }

  lemma InsertCaptures(st: Store, id: Id, m: Model)
    requires m.live && m.name == OUTPUT_MODEL && StrOf(ValueOf(m.attrs, "msg_id")) != ""
    ensures CapturingModel(Insert(st, id, m), StrOf(ValueOf(m.attrs, "msg_id"))) == Some(id)
  {
    var put, msg := Put(DropModel(st, id), id, m), StrOf(ValueOf(m.attrs, "msg_id"));
    InsertIs(st, id, m);
    WidgetEffects.AddCaptureAdds(put, msg, id);
    var st2 := Insert(st, id, m);
    assert st2.models == put.models && st2.capture == AddCapture(put, msg, id).capture;
  }

  lemma InsertPlaces(st: Store, id: Id, c: Change)
    requires Rep(st, {})
    ensures Placed(st, Insert(st, id, Opened(c)), id, c)
    ensures Insert(st, id, Opened(c)).links == st.links - {id}
  {
    OpenedIs(c);
    InsertModels(st, id, Opened(c));
    InsertCapturesText(st, id, Opened(c));
  }

  lemma InsertCapturesText(st: Store, id: Id, m: Model)
    requires m.live
    ensures forall msg | ReadsText(m.attrs, "msg_id", msg) && msg != "" && m.name == OUTPUT_MODEL ::
              CapturingModel(Insert(st, id, m), msg) == Some(id)
  {
    forall msg | ReadsText(m.attrs, "msg_id", msg) && msg != "" && m.name == OUTPUT_MODEL
      ensures CapturingModel(Insert(st, id, m), msg) == Some(id)
    {
      InsertCaptures(st, id, m);
    }
  }

  /** comm_open of a model that is no link and that no link ends at. */
  lemma OpenPlaces(st: Store, id: Id, c: Change, e: Env)
    requires Rep(st, {}) && id !in st.linkIndex && forall link :: !SaysLink(Opened(c), link)
    ensures Placed(st, CommOpen(st, id, c, e), id, c) && id !in CommOpen(st, id, c, e).links
  {
    NoLinkRead(Opened(c));
    InsertPlaces(st, id, c);
    InsertIndex(st, id, c);
  }

  lemma FirstIndexed(st: Store, id: Id)
    ensures LinksAt(st, id) == [] || Indexed(st.linkIndex, id, LinksAt(st, id)[0])
  {
  }

  lemma NothingIndexed(st: Store, id: Id)
    requires LinksOk(st) && forall l :: !Indexed(st.linkIndex, id, l)
    ensures id !in st.linkIndex
  {
    FirstIndexed(st, id);
  }

  lemma InsertIndex(st: Store, id: Id, c: Change)
    requires Rep(st, {}) && id !in st.linkIndex
    ensures id !in Insert(st, id, Opened(c)).linkIndex
  {
    InsertModels(st, id, Opened(c));
    DropIndex(st, id);
  }

  lemma DropIndex(st: Store, id: Id)
    requires Rep(st, {}) && id !in st.linkIndex
    ensures id !in DropModel(st, id).linkIndex
  {
    WidgetEffects.DropForgets(st, id);
    DroppedRep(st, id);
    NothingIndexed(DropModel(st, id), id);
  }

  /** The link is on record with these ends; when both are connected, its target has what its source
      had, the slots of buffers apart. `before` is the store when the link applies. */
  ghost predicate Linked(before: Store, st2: Store, id: Id, link: Link) {
    && id in st2.links && st2.links[id] == link
    && (IsLive(before, link.source.model) && IsLive(before, link.target.model)
        && ValueAt(before, link.source) != Entry(None, {}) ==>
          Norm(ValueAt(st2, link.target)) == Norm(ValueAt(before, link.source)))
  }

  lemma IndexedApplies(st: Store, id: Id, link: Link, e: Env)
    requires Rep(st, {}) && 2 * (|st.links| + 1) <= LINK_STEP_LIMIT
    ensures Linked(st, ApplyLink(IndexLink(st, id, link), id, e), id, link)
  {
    var st1 := IndexLink(st, id, link);
    IndexLinkOk(st, id, link);
    assert st1.links[id] == link && st1.models == st.models;
    OneMoreLink(st.links, st1.links, id);
    ApplyLinkKeepsLinks(st1, id, e);
    if IsLive(st, link.source.model) && IsLive(st, link.target.model) && ValueAt(st, link.source) != Entry(None, {}) {
      LinkApplies(st1, id, e);
    }
  }

  lemma OneMoreLink(was: map<Id, Link>, now: map<Id, Link>, id: Id)
    requires now.Keys == was.Keys + {id}
    ensures |now| <= |was| + 1
  {
    assert |now.Keys| == |now| && |was.Keys| == |was|;
    if id in was { assert was.Keys + {id} == was.Keys; }
  }

  /** comm_open of a link model: the link is on record, two-way exactly for a LinkModel, and it
      applies. */
  lemma OpenLinks(st: Store, id: Id, c: Change, link: Link, e: Env)
    requires Rep(st, {}) && SaysLink(Opened(c), link) && 2 * (|st.links| + 1) <= LINK_STEP_LIMIT
    ensures Linked(Insert(st, id, Opened(c)), CommOpen(st, id, c, e), id, link)
  {
    var st1 := Insert(st, id, Opened(c));
    LinkIsRead(Opened(c), link);
    InsertRep(st, id, c);
    InsertPlaces(st, id, c);
    FewerLinks(st.links, id);
    IndexedApplies(st1, id, link, e);
  }

  lemma FewerLinks(links: map<Id, Link>, id: Id)
    ensures |links - {id}| <= |links|
  {
    assert (links - {id}).Keys == links.Keys - {id};
    assert |(links - {id}).Keys| == |links - {id}| && |links.Keys| == |links|;
  }

  // ---- a link model whose ends change ----

  lemma RelinkLinks(st: Store, id: Id, link: Link, e: Env)
    requires Rep(st, {}) && id in st.models && SaysLink(st.models[id], link) && 2 * (|st.links| + 1) <= LINK_STEP_LIMIT
    ensures Linked(st, Relink(st, id, e), id, link)
  {
    LinkIsRead(st.models[id], link);
    IndexedApplies(st, id, link, e);
  }

  lemma RelinkForgets(st: Store, id: Id, e: Env)
    requires Rep(st, {}) && id in st.models && forall link :: !SaysLink(st.models[id], link)
    ensures Relink(st, id, e).links == st.links - {id}
  {
    NoLinkRead(st.models[id]);
    UnindexOk(st, id);
  }

  /** The link model with its new attributes, in the store as its change is followed. */
  function Retargeted(st: Store, id: Id, c: Change): Store
    requires id in st.models
  {
    Emit(SetAttrs(st, id, c.attrs), Notify(id))
  }

  lemma RetargetedIs(st: Store, id: Id, c: Change, e: Env)
    requires IsLive(st, id) && IsLinkModel(st.models[id]) && ("source" in c.keys || "target" in c.keys)
    ensures var st1 := Retargeted(st, id, c);
            && id in st1.models && st1.models[id].name == st.models[id].name
            && st1.models[id].attrs == Merge(st.models[id].attrs, c.attrs)
            && KernelUpdate(st, id, c, e) ==
               var st2 := Relink(st1, id, e);
               if id in st2.linkIndex then Propagate(st2, EndsOf(id, c.keys), 0, e).st else st2
  {
  }

  lemma RetargetedRep(st: Store, id: Id, c: Change)
    requires Rep(st, {}) && IsLive(st, id)
    ensures Rep(Retargeted(st, id, c), {}) && Retargeted(st, id, c).links == st.links
  {
    var m := st.models[id];
    assert SetAttrs(st, id, c.attrs) == WidgetEvents.Reset1(st, id, Merge(m.attrs, c.attrs), m.expected);
    WidgetEvents.Reset1Rep(st, id, c.attrs, m.expected);
    EmitRep(SetAttrs(st, id, c.attrs), Notify(id), {});
  }

  /** kernel_update of the ends of a link model: the link is on record with the ends it says now, and
      with none it is forgotten. */
  lemma RetargetLinks(st: Store, id: Id, c: Change, e: Env)
    requires Rep(st, {}) && IsLive(st, id) && IsLinkModel(st.models[id]) && ("source" in c.keys || "target" in c.keys)
    requires 2 * (|st.links| + 1) <= LINK_STEP_LIMIT
    ensures var m, st2 := st.models[id].(attrs := Merge(st.models[id].attrs, c.attrs)), KernelUpdate(st, id, c, e);
            && (forall link | SaysLink(m, link) :: id in st2.links && st2.links[id] == link)
            && ((forall link :: !SaysLink(m, link)) ==> id !in st2.links)
  {
    var m := st.models[id].(attrs := Merge(st.models[id].attrs, c.attrs));
    var st1 := Retargeted(st, id, c);
    RetargetedIs(st, id, c, e);
    RetargetedRep(st, id, c);
    PropagateKeepsLinks(Relink(st1, id, e), EndsOf(id, c.keys), 0, e);
    assert st1.models[id] == m;
    forall link | SaysLink(m, link) ensures id in Relink(st1, id, e).links && Relink(st1, id, e).links[id] == link {
      RelinkLinks(st1, id, link, e);
    }
    if forall link :: !SaysLink(m, link) { RelinkForgets(st1, id, e); }
  }

  /** ... and when no link ends at the link model itself, the target has what the source has. */
  lemma RetargetApplies(st: Store, id: Id, c: Change, link: Link, e: Env)
    requires Rep(st, {}) && IsLive(st, id) && IsLinkModel(st.models[id]) && ("source" in c.keys || "target" in c.keys)
    requires 2 * (|st.links| + 1) <= LINK_STEP_LIMIT
    requires SaysLink(Retargeted(st, id, c).models[id], link) && id !in KernelUpdate(st, id, c, e).linkIndex
    ensures Linked(Retargeted(st, id, c), KernelUpdate(st, id, c, e), id, link)
  {
    var st1 := Retargeted(st, id, c);
    RetargetedIs(st, id, c, e);
    RetargetedRep(st, id, c);
    RelinkLinks(st1, id, link, e);
    PropagateKeepsLinks(Relink(st1, id, e), EndsOf(id, c.keys), 0, e);
  }
}
