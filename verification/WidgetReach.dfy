/** Which widget models a notebook's views reach, and what a save and a restart make of it
    (core/src/widgets.rs: reach, links_between, reset, export_saved, load_saved). */
module WidgetReach {
  import opened Json
  import opened Attributes
  import opened WidgetStore
  import opened WidgetInvariants

  const VIEW_MIME := "application/vnd.jupyter.widget-view+json"

  // ---- references ----

  /** collect_model_refs */
  function Refs(v: Value): set<Id> {
    match v
    case Str(s) => if RefOf(s).Some? then {RefOf(s).value} else {}
    case Arr(items) => set i, r | 0 <= i < |items| && r in Refs(items[i]) :: r
    case Obj(fields) => set k, r | k in fields && r in Refs(fields[k]) :: r
    case _ => {}
  }

  /** view_model_id */
  function ViewedModel(out: Value): Option<Id> {
    var kind := StrOf(Get(out, "output_type"));
    if kind != "display_data" && kind != "execute_result" then None
    else
      match Get(out, "data")
      case Some(data) =>
        (match Get(data, VIEW_MIME)
         case Some(view) => (match Get(view, "model_id") case Some(Str(id)) => Some(id) case _ => None)
         case None => None)
      case None => None
  }

  function AttrRefs(attrs: Attrs): set<Id> {
    set k, r | k in attrs && attrs[k].value.Some? && r in Refs(attrs[k].value.value) :: r
  }

  function Views(outputs: seq<Value>): set<Id> {
    set out | out in outputs && ViewedModel(out).Some? :: ViewedModel(out).value
  }

  function RefsOf(m: Model): set<Id> {
    AttrRefs(m.attrs) + if m.name == OUTPUT_MODEL then Views(OutputsOf(m)) else {}
  }

  /** Somewhere in the value, through any items and fields, stands a string that names the model. */
  ghost predicate Names(v: Value, r: Id) {
    exists path :: Follow(v, path) == Some(Str(MODEL_REF + r))
  }

  lemma FollowField(fields: map<string, Value>, k: string, path: Path)
    requires k in fields
    ensures Follow(Obj(fields), [Name(k)] + path) == Follow(fields[k], path)
  {
    assert ([Name(k)] + path)[1..] == path;
  }

  lemma FollowItem(items: seq<Value>, i: nat, path: Path)
    requires i < |items|
    ensures Follow(Arr(items), [Index(i)] + path) == Follow(items[i], path)
  {
    assert ([Index(i)] + path)[1..] == path;
  }

  lemma {:induction false} CollectedIsNamed(v: Value, r: Id)
    requires r in Refs(v)
    ensures Names(v, r)
    decreases v
  {
    match v
    case Str(s) =>
      assert s == MODEL_REF + r;
      assert Follow(v, []) == Some(Str(s));
    case Arr(items) =>
      var i :| 0 <= i < |items| && r in Refs(items[i]);
      CollectedIsNamed(items[i], r);
      var path :| Follow(items[i], path) == Some(Str(MODEL_REF + r));
      FollowItem(items, i, path);
    case Obj(fields) =>
      var k :| k in fields && r in Refs(fields[k]);
      CollectedIsNamed(fields[k], r);
      var path :| Follow(fields[k], path) == Some(Str(MODEL_REF + r));
      FollowField(fields, k, path);
    case _ =>
  }

  lemma {:induction false} NamedIsCollected(v: Value, path: Path, r: Id)
    requires Follow(v, path) == Some(Str(MODEL_REF + r))
    ensures r in Refs(v)
    decreases |path|
  {
    if path == [] {
      assert (MODEL_REF + r)[|MODEL_REF|..] == r;
    } else {
      match (v, path[0])
      case (Obj(m), Name(k)) => NamedIsCollected(m[k], path[1..], r);
      case (Arr(a), Index(i)) => NamedIsCollected(a[i], path[1..], r);
    }
  }

  /** collect_model_refs finds a model exactly when it is named somewhere in the value. */
  lemma RefsAreNames(v: Value, r: Id)
    ensures r in Refs(v) <==> Names(v, r)
  {
    if r in Refs(v) { CollectedIsNamed(v, r); }
    if Names(v, r) {
      var path :| Follow(v, path) == Some(Str(MODEL_REF + r));
      NamedIsCollected(v, path, r);
    }
  }

  /** The output is a display or a result whose data has a view of the model. */
  predicate ShowsModel(out: Value, r: Id) {
    && (Follow(out, [Name("output_type")]) == Some(Str("display_data"))
        || Follow(out, [Name("output_type")]) == Some(Str("execute_result")))
    && Follow(out, [Name("data"), Name(VIEW_MIME), Name("model_id")]) == Some(Str(r))
  }

  lemma FollowGet(v: Value, k: string)
    ensures Follow(v, [Name(k)]) == Get(v, k)
  {
    if v.Obj? && k in v.fields { FollowField(v.fields, k, []); }
  }

  lemma FollowGets(v: Value, k: string, path: Path)
    ensures Follow(v, [Name(k)] + path) == if Get(v, k).Some? then Follow(Get(v, k).value, path) else None
  {
    if v.Obj? && k in v.fields { FollowField(v.fields, k, path); }
  }

  lemma ViewedIsShown(out: Value, r: Id)
    ensures ViewedModel(out) == Some(r) <==> ShowsModel(out, r)
  {
    FollowGet(out, "output_type");
    FollowGets(out, "data", [Name(VIEW_MIME), Name("model_id")]);
    assert [Name("data")] + [Name(VIEW_MIME), Name("model_id")] == [Name("data"), Name(VIEW_MIME), Name("model_id")];
    if Get(out, "data").Some? {
      var data := Get(out, "data").value;
      FollowGets(data, VIEW_MIME, [Name("model_id")]);
      assert [Name(VIEW_MIME)] + [Name("model_id")] == [Name(VIEW_MIME), Name("model_id")];
      if Get(data, VIEW_MIME).Some? { FollowGet(Get(data, VIEW_MIME).value, "model_id"); }
    }
  }

  /** What a model refers to: the models named anywhere in an attribute's value, and, for an Output
      widget, those its outputs show. */
  lemma RefsOfAreNames(m: Model, r: Id)
    ensures r in RefsOf(m) <==>
            || (exists k <- m.attrs :: m.attrs[k].value.Some? && Names(m.attrs[k].value.value, r))
            || (m.name == OUTPUT_MODEL && exists out <- OutputsOf(m) :: ShowsModel(out, r))
  {
    forall k | k in m.attrs && m.attrs[k].value.Some?
      ensures r in Refs(m.attrs[k].value.value) <==> Names(m.attrs[k].value.value, r)
    {
      RefsAreNames(m.attrs[k].value.value, r);
    }
    forall out | out in OutputsOf(m) ensures ViewedModel(out) == Some(r) <==> ShowsModel(out, r) {
      ViewedIsShown(out, r);
    }
    assert r in Views(OutputsOf(m)) <==> exists out <- OutputsOf(m) :: ViewedModel(out) == Some(r);
  }

  // ---- reachability ----

  /** A way from a root to `id`, each model naming the next one. */
  predicate Path(models: map<Id, Model>, roots: set<Id>, path: seq<Id>, id: Id) {
    && path != [] && path[0] in roots && path[|path| - 1] == id
    && (forall x <- path :: x in models)
    && (forall i | 0 <= i < |path| - 1 :: path[i + 1] in RefsOf(models[path[i]]))
  }

  ghost predicate Reached(models: map<Id, Model>, roots: set<Id>, id: Id) {
    exists path :: Path(models, roots, path, id)
  }

  lemma ReachedRoot(models: map<Id, Model>, roots: set<Id>, id: Id)
    requires id in roots && id in models
    ensures Reached(models, roots, id)
  {
    assert Path(models, roots, [id], id);
  }

  lemma ReachedNext(models: map<Id, Model>, roots: set<Id>, id: Id, r: Id)
    requires Reached(models, roots, id) && id in models && r in RefsOf(models[id]) && r in models
    ensures Reached(models, roots, r)
  {
    var path :| Path(models, roots, path, id);
    assert Path(models, roots, path + [r], r);
  }

  /** A set that has the roots and is closed under references has every model reached. */
  lemma {:induction false} ClosedHasPath(models: map<Id, Model>, roots: set<Id>, s: set<Id>, path: seq<Id>, id: Id)
    requires forall x <- roots :: x in models ==> x in s
    requires forall x, r | x in s && x in models && r in RefsOf(models[x]) && r in models :: r in s
    requires Path(models, roots, path, id)
    ensures id in s
    decreases |path|
  {
    if |path| > 1 {
      var init := path[..|path| - 1];
      assert Path(models, roots, init, init[|init| - 1]);
      ClosedHasPath(models, roots, s, init, init[|init| - 1]);
      assert path[|init| - 1 + 1] in RefsOf(models[path[|init| - 1]]);
    }
  }

  lemma NoRepeatsAppend(s: seq<Id>, x: Id)
    requires NoRepeats(s) && x !in s
    ensures NoRepeats(s + [x])
  {
  }

  /** Each id not met before joins the end of the queue. */
  method Enqueue(models: map<Id, Model>, order: seq<Id>, queue: seq<Id>, ids: set<Id>) returns (longer: seq<Id>)
    requires NoRepeats(order + queue)
    ensures NoRepeats(order + longer) && queue <= longer
    ensures forall x :: x in order + longer <==> x in order + queue || (x in ids && x in models)
  {
    longer := queue;
    var todo := ids;
    while todo != {}
      invariant todo <= ids && queue <= longer
      invariant NoRepeats(order + longer)
      invariant forall x :: x in order + longer <==> x in order + queue || (x in ids - todo && x in models)
      decreases todo
    {
      var r :| r in todo;
      todo := todo - {r};
      if r in models && r !in order + longer {
        NoRepeatsAppend(order + longer, r);
        assert order + (longer + [r]) == order + longer + [r];
        longer := longer + [r];
      }
    }
  }

  /** What holds of the walk between two models: `met` are the models met so far, `order` those
      whose references were followed. */
  ghost predicate Walking(models: map<Id, Model>, roots: set<Id>, order: set<Id>, met: set<Id>) {
    && (forall id <- met :: id in models && Reached(models, roots, id))
    && (forall r <- roots :: r in models ==> r in met)
    && (forall id, r | id in order && id in models && r in RefsOf(models[id]) && r in models :: r in met)
    && order <= met
  }

  lemma WalkOn(models: map<Id, Model>, roots: set<Id>, order: set<Id>, met: set<Id>, id: Id, more: set<Id>)
    requires Walking(models, roots, order, met) && id in met
    requires forall x :: x in more <==> x in met || (x in RefsOf(models[id]) && x in models)
    ensures Walking(models, roots, order + {id}, more)
  {
    forall r | r in more && r !in met ensures Reached(models, roots, r) { ReachedNext(models, roots, id, r); }
  }

  lemma WalkEnds(models: map<Id, Model>, roots: set<Id>, order: set<Id>, id: Id)
    requires Walking(models, roots, order, order)
    ensures id in order <==> Reached(models, roots, id)
  {
    if Reached(models, roots, id) {
      var path :| Path(models, roots, path, id);
      ClosedHasPath(models, roots, order, path, id);
    }
  }

  /** reach: breadth first, each model once. */
  method Reach(models: map<Id, Model>, roots: seq<Id>) returns (order: seq<Id>)
    ensures NoRepeats(order)
    ensures forall id :: id in order <==> Reached(models, Elems(roots), id)
  {
    ghost var target := Elems(roots);
    var queue := Roots(models, roots);
    order := [];
    assert order + queue == queue;
    while queue != []
      invariant NoRepeats(order + queue)
      invariant Walking(models, target, Elems(order), Elems(order + queue))
      decreases models.Keys - Elems(order)
    {
      var id := queue[0];
      assert order + queue == order + [id] + queue[1..];
      assert (order + queue)[|order|] == id && forall i | 0 <= i < |order| :: order[i] == (order + queue)[i];
      assert id in Elems(order + queue) && id !in Elems(order);
      ghost var before, met := order, Elems(order + queue);
      order := order + [id];
      queue := Enqueue(models, order, queue[1..], RefsOf(models[id]));
      WalkOn(models, target, Elems(before), met, id, Elems(order + queue));
      assert Elems(order) == Elems(before) + {id};
    }
    assert order + queue == order;
    forall id ensures id in order <==> Reached(models, target, id) {
      WalkEnds(models, target, Elems(order), id);
    }
  }

  /** The start of the queue: the roots there are, in their order. */
  method Roots(models: map<Id, Model>, roots: seq<Id>) returns (queue: seq<Id>)
    ensures NoRepeats(queue)
    ensures Walking(models, Elems(roots), {}, Elems(queue))
  {
    queue := [];
    for i := 0 to |roots|
      invariant NoRepeats(queue)
      invariant forall x :: x in queue <==> x in roots[..i] && x in models
    {
      assert [] + queue == queue;
      queue := Enqueue(models, [], queue, {roots[i]});
      assert [] + queue == queue;
      assert roots[..i + 1] == roots[..i] + [roots[i]];
    }
    assert roots[..|roots|] == roots;
    forall id | id in queue ensures Reached(models, Elems(roots), id) { ReachedRoot(models, Elems(roots), id); }
  }

  // ---- what a save and a restart keep ----

  /** link_end */
  function LinkEnd(v: Option<Value>): Option<Id> {
    if v.Some? && v.value.Arr? && v.value.items != [] && v.value.items[0].Str? then RefOf(v.value.items[0].s) else None
  }

  /** A link model both ends of which are in `kept`: links_between. */
  predicate LinkBetween(m: Model, kept: set<Id>) {
    var s, t := LinkEnd(ValueOf(m.attrs, "source")), LinkEnd(ValueOf(m.attrs, "target"));
    IsLinkModel(m) && s.Some? && t.Some? && s.value in kept && t.value in kept
  }

  /** The value of the attribute is a list whose first item names the model. */
  predicate EndNames(attrs: Attrs, key: string, id: Id) {
    key in attrs && attrs[key].value.Some? && Follow(attrs[key].value.value, [Index(0)]) == Some(Str(MODEL_REF + id))
  }

  lemma EndIsNamed(attrs: Attrs, key: string, id: Id)
    ensures LinkEnd(ValueOf(attrs, key)) == Some(id) <==> EndNames(attrs, key, id)
  {
    var v := ValueOf(attrs, key);
    if v.Some? && v.value.Arr? && v.value.items != [] {
      var first := v.value.items[0];
      assert [Index(0)][1..] == [] && Follow(v.value, [Index(0)]) == Some(first);
      if first.Str? {
        if MODEL_REF <= first.s { assert first.s == MODEL_REF + first.s[|MODEL_REF|..]; }
        assert (MODEL_REF + id)[|MODEL_REF|..] == id;
      }
    }
  }

  /** links_between takes the models of the two link classes whose ends name models kept. */
  lemma LinkBetweenIff(m: Model, kept: set<Id>)
    ensures LinkBetween(m, kept) <==>
            && (m.name == "LinkModel" || m.name == "DirectionalLinkModel")
            && (exists s <- kept :: EndNames(m.attrs, "source", s)) && (exists t <- kept :: EndNames(m.attrs, "target", t))
  {
    forall id ensures LinkEnd(ValueOf(m.attrs, "source")) == Some(id) <==> EndNames(m.attrs, "source", id) {
      EndIsNamed(m.attrs, "source", id);
    }
    forall id ensures LinkEnd(ValueOf(m.attrs, "target")) == Some(id) <==> EndNames(m.attrs, "target", id) {
      EndIsNamed(m.attrs, "target", id);
    }
    if LinkBetween(m, kept) {
      assert EndNames(m.attrs, "source", LinkEnd(ValueOf(m.attrs, "source")).value);
      assert EndNames(m.attrs, "target", LinkEnd(ValueOf(m.attrs, "target")).value);
    }
  }

  ghost predicate Kept(models: map<Id, Model>, roots: set<Id>, id: Id) {
    id in models && (Reached(models, roots, id) || LinkBetween(models[id], ReachedSet(models, roots)))
  }

  ghost function ReachedSet(models: map<Id, Model>, roots: set<Id>): set<Id> {
    set id | id in models && Reached(models, roots, id)
  }

  ghost function KeptSet(models: map<Id, Model>, roots: set<Id>): set<Id> {
    set id | id in models && Kept(models, roots, id)
  }

  /** The models to keep, as reset computes them. */
  method Keep(models: map<Id, Model>, roots: seq<Id>) returns (keep: set<Id>)
    ensures keep == KeptSet(models, Elems(roots))
  {
    var order := Reach(models, roots);
    var reached := Elems(order);
    ReachedHasModels(models, Elems(roots));
    assert reached == ReachedSet(models, Elems(roots));
    keep := reached;
    var todo := models.Keys;
    while todo != {}
      invariant todo <= models.Keys
      invariant keep == reached + set id | id in models && id !in todo && LinkBetween(models[id], reached)
      decreases todo
    {
      var id :| id in todo;
      todo := todo - {id};
      if LinkBetween(models[id], reached) {
        keep := keep + {id};
      }
    }
  }

  lemma ReachedHasModels(models: map<Id, Model>, roots: set<Id>)
    ensures forall id :: Reached(models, roots, id) ==> id in models
  {
  }

  /** `after` has the kept models and no other, and each names the models it named. */
  ghost predicate KeepsRefs(models: map<Id, Model>, after: map<Id, Model>, roots: set<Id>) {
    && after.Keys == KeptSet(models, roots)
    && forall id <- after :: RefsOf(after[id]) == RefsOf(models[id])
                             && (forall s :: LinkBetween(after[id], s) <==> LinkBetween(models[id], s))
  }

  /** What is reached is reached without what was not kept, and nothing else is. */
  lemma KeptReached(models: map<Id, Model>, after: map<Id, Model>, roots: set<Id>, id: Id)
    requires KeepsRefs(models, after, roots)
    ensures Reached(after, roots, id) <==> Reached(models, roots, id)
  {
    if Reached(after, roots, id) {
      var path :| Path(after, roots, path, id);
      assert Path(models, roots, path, id);
    }
    if Reached(models, roots, id) {
      var path :| Path(models, roots, path, id);
      forall i | 0 <= i < |path| ensures path[i] in after {
        assert Path(models, roots, path[..i + 1], path[i]);
      }
      assert Path(after, roots, path, id);
    }
  }

  lemma ReachedAgain(models: map<Id, Model>, after: map<Id, Model>, roots: set<Id>)
    requires KeepsRefs(models, after, roots)
    ensures ReachedSet(after, roots) == ReachedSet(models, roots)
  {
    ReachedHasModels(after, roots);
    ReachedHasModels(models, roots);
    forall id ensures id in ReachedSet(after, roots) <==> id in ReachedSet(models, roots) {
      KeptReached(models, after, roots, id);
    }
  }

  lemma KeptAgain(models: map<Id, Model>, after: map<Id, Model>, roots: set<Id>)
    requires KeepsRefs(models, after, roots)
    ensures ReachedSet(after, roots) == ReachedSet(models, roots) && KeptSet(after, roots) == after.Keys
  {
    ReachedAgain(models, after, roots);
    forall id | id in after ensures Kept(after, roots, id) {
      assert Kept(models, roots, id);
      KeptReached(models, after, roots, id);
    }
  }

  // ---- the saved block ----

  /** One model of the saved block; the base64 of a buffer is taken for the buffer. */
  datatype Saved = Saved(name: string, moduleName: string, version: string, state: map<string, Value>, buffers: set<Pair>)

  /** state_without_transient, as attributes. */
  function Unbooked(m: Model): Attrs {
    if m.name == OUTPUT_MODEL && ValueOf(m.attrs, "outputs").Some? && ValueOf(m.attrs, "outputs").value.Arr?
    then m.attrs["outputs" := m.attrs["outputs"].(value := Some(OutputsForKernel(m.attrs["outputs"].value)))]
    else m.attrs
  }

  function StateOf(attrs: Attrs): map<string, Value> {
    map k | k in attrs && attrs[k].value.Some? :: attrs[k].value.value
  }

  function BuffersOf(attrs: Attrs): set<Pair> {
    set k, b | k in attrs && b in attrs[k].bufs :: Pair([Name(k)] + b.path, b.bytes)
  }

  /** saved_entry */
  function SavedEntry(m: Model): Saved {
    Saved(m.name, m.moduleName, m.version, StateOf(Unbooked(m)), BuffersOf(Unbooked(m)))
  }

  /** What a saved entry holds: the names, every attribute's value, an Output widget's outputs
      without transient, and every buffer under its full path. */
  lemma SavedHolds(m: Model, k: string, b: Buf)
    ensures var s := SavedEntry(m);
            && s.name == m.name && s.moduleName == m.moduleName && s.version == m.version
            && Lookup(s.state, k) ==
               (if m.name == OUTPUT_MODEL && k == "outputs" && ValueOf(m.attrs, k).Some? && ValueOf(m.attrs, k).value.Arr?
                then Some(OutputsForKernel(ValueOf(m.attrs, k))) else ValueOf(m.attrs, k))
            && (Pair([Name(k)] + b.path, b.bytes) in s.buffers <==> b in AttrOf(m, k).bufs)
  {
    var p := Pair([Name(k)] + b.path, b.bytes);
    assert p.path[0] == Name(k) && p.path[1..] == b.path;
    if p in SavedEntry(m).buffers {
      var k2, b2 :| k2 in Unbooked(m) && b2 in Unbooked(m)[k2].bufs && Pair([Name(k2)] + b2.path, b2.bytes) == p;
      assert ([Name(k2)] + b2.path)[0] == Name(k2) && ([Name(k2)] + b2.path)[1..] == b2.path;
    }
  }

  ghost function Export(models: map<Id, Model>, roots: set<Id>): Option<map<Id, Saved>> {
    if ReachedSet(models, roots) == {} then None
    else Some(map id | id in models && id in KeptSet(models, roots) :: SavedEntry(models[id]))
  }

  /** export_saved */
  method ExportSaved(models: map<Id, Model>, roots: seq<Id>) returns (block: Option<map<Id, Saved>>)
    ensures block == Export(models, Elems(roots))
  {
    var order := Reach(models, roots);
    ReachedHasModels(models, Elems(roots));
    assert Elems(order) == ReachedSet(models, Elems(roots));
    if order == [] {
      return None;
    }
    assert order[0] in Elems(order);
    var keep := Keep(models, roots);
    block := Some(map id | id in models && id in keep :: SavedEntry(models[id]));
  }

  /** A restart and a save follow one rule: a restart with some roots prunes exactly the models
      that are not reached and are not links between two models reached; a save with the same
      roots writes the same before and after it; and a second restart prunes nothing more. */
  lemma ResetAgreesWithSave(st: Store, roots: set<Id>)
    ensures var after := Reset(st, KeptSet(st.models, roots));
            && (forall id :: id in after.models <==> Kept(st.models, roots, id))
            && Export(after.models, roots) == Export(st.models, roots)
            && Reset(after, KeptSet(after.models, roots)).models == after.models
  {
    var after := Reset(st, KeptSet(st.models, roots));
    DisconnectedRefs(st.models);
    KeptAgain(st.models, after.models, roots);
    SameExport(st.models, after.models, roots);
    DisconnectedTwice(st, KeptSet(st.models, roots));
  }

  lemma DisconnectedRefs(models: map<Id, Model>)
    ensures forall id <- models :: RefsOf(Disconnected(models[id])) == RefsOf(models[id])
                                   && SavedEntry(Disconnected(models[id])) == SavedEntry(models[id])
    ensures forall id, s | id in models :: LinkBetween(Disconnected(models[id]), s) <==> LinkBetween(models[id], s)
  {
    forall id | id in models ensures Unbooked(Disconnected(models[id])) == Unbooked(models[id]) {}
  }

  lemma SameBlocks(models: map<Id, Model>, after: map<Id, Model>, roots: set<Id>)
    requires ReachedSet(models, roots) != {} && ReachedSet(after, roots) != {}
    requires forall id <- after :: id in models && SavedEntry(after[id]) == SavedEntry(models[id])
    ensures Export(after, roots) == Export(models, roots) <==> KeptSet(after, roots) == KeptSet(models, roots)
  {
    var first, second := Export(models, roots).value, Export(after, roots).value;
    assert first.Keys == KeptSet(models, roots) && second.Keys == KeptSet(after, roots);
    if first.Keys == second.Keys { assert second == first; }
  }

  lemma SameExport(models: map<Id, Model>, after: map<Id, Model>, roots: set<Id>)
    requires KeepsRefs(models, after, roots)
    requires forall id <- after :: SavedEntry(after[id]) == SavedEntry(models[id])
    ensures Export(after, roots) == Export(models, roots)
  {
    KeptAgain(models, after, roots);
    if ReachedSet(models, roots) != {} { SameBlocks(models, after, roots); }
  }

  lemma DisconnectedTwice(st: Store, keep: set<Id>)
    ensures Reset(Reset(st, keep), Reset(st, keep).models.Keys).models == Reset(st, keep).models
  {
    var after := Reset(st, keep);
    assert Reset(after, after.models.Keys).models.Keys == after.models.Keys;
  }

  // ---- loading ----

  function BufsIn(buffers: set<Pair>, key: string): set<Buf> {
    set p | p in buffers && Under(p, key) :: Buf(p.path[1..], p.bytes)
  }

  function AttrsIn(s: Saved): Attrs {
    map k <- s.state.Keys + (set p | p in s.buffers && ValidPath(p.path) :: p.path[0].key) ::
      Entry(Lookup(s.state, k), BufsIn(s.buffers, k))
  }

  /** load_saved, for one entry with a name and a state. */
  function Loaded(s: Saved): Model {
    Blank(s.name, s.moduleName, s.version, false).(attrs := Merge(map[], AttrsIn(s)))
  }

  /** The buffers under a key are those whose path is the key and then their own. */
  lemma BufsInHolds(buffers: set<Pair>, k: string, b: Buf)
    ensures b in BufsIn(buffers, k) <==> Pair([Name(k)] + b.path, b.bytes) in buffers
  {
    var p := Pair([Name(k)] + b.path, b.bytes);
    assert p.path[1..] == b.path;
    if b in BufsIn(buffers, k) {
      var q :| q in buffers && Under(q, k) && Buf(q.path[1..], q.bytes) == b;
      PathUnder(q.path, k);
      assert q == p;
    }
  }

  /** What a saved entry loads as: a dead model of these names, whose attributes are the values and
      buffers of the entry with the slots empty. */
  lemma LoadedHolds(s: Saved, k: string)
    ensures var m := Loaded(s);
            && m.name == s.name && m.moduleName == s.moduleName && m.version == s.version && !m.live
            && AttrOf(m, k) == Norm(Entry(Lookup(s.state, k), BufsIn(s.buffers, k)))
  {
    var attrs := AttrsIn(s);
    forall p | p in s.buffers && Under(p, k) ensures k in attrs { assert ValidPath(p.path) && p.path[0].key == k; }
    assert k !in attrs ==> BufsIn(s.buffers, k) == {};
  }

  predicate NoVoid(attrs: Attrs) {
    forall k <- attrs :: attrs[k] != Entry(None, {})
  }

  lemma SavedAttrsBack(attrs: Attrs, name: string, moduleName: string, version: string)
    requires NoVoid(attrs)
    ensures AttrsIn(Saved(name, moduleName, version, StateOf(attrs), BuffersOf(attrs))) == attrs
  {
    var s := Saved(name, moduleName, version, StateOf(attrs), BuffersOf(attrs));
    var back := AttrsIn(s);
    forall k
      ensures BufsIn(s.buffers, k) == if k in attrs then attrs[k].bufs else {}
    {
      var want := if k in attrs then attrs[k].bufs else {};
      forall b | b in want ensures b in BufsIn(s.buffers, k) {
        var p := Pair([Name(k)] + b.path, b.bytes);
        assert p in s.buffers && Under(p, k) && p.path[1..] == b.path;
      }
    }
    forall k | k in attrs ensures k in back {
      if attrs[k].value.None? {
        var b :| b in attrs[k].bufs;
        assert Pair([Name(k)] + b.path, b.bytes) in s.buffers;
      }
    }
    assert back.Keys == attrs.Keys;
  }

  lemma MergedIsIt(attrs: Attrs)
    ensures Merge(map[], attrs) == attrs <==> forall k <- attrs :: Stripped(attrs[k])
  {
    var merged := Merge(map[], attrs);
    assert merged.Keys == attrs.Keys;
    if merged == attrs {
      forall k | k in attrs ensures Stripped(attrs[k]) { assert merged[k] == attrs[k]; }
    }
  }

  lemma UnbookedNoVoid(m: Model)
    requires NoVoid(m.attrs)
    ensures NoVoid(Unbooked(m))
  {
  }

  /** A saved model loads as the model it was saved from, disconnected and without the display
      bookkeeping, exactly when the slots of its buffers are empty. */
  lemma SavedModelRoundTrip(m: Model)
    requires NoVoid(m.attrs)
    ensures Loaded(SavedEntry(m)) == Disconnected(m).(attrs := Unbooked(m)) <==>
            forall k <- Unbooked(m) :: Stripped(Unbooked(m)[k])
  {
    var attrs := Unbooked(m);
    UnbookedNoVoid(m);
    SavedAttrsBack(attrs, m.name, m.moduleName, m.version);
    MergedIsIt(attrs);
    assert Loaded(SavedEntry(m)) == Disconnected(m).(attrs := Merge(map[], attrs));
  }

  // ---- the whole block ----

  /** The display bookkeeping of an Output widget names no model. */
  predicate NamesNoModel(m: Model) {
    m.name == OUTPUT_MODEL ==>
      forall out <- OutputsOf(m) | Get(out, "transient").Some? :: Refs(Get(out, "transient").value) == {}
  }

  lemma WithoutTransientRefs(out: Value)
    requires Get(out, "transient").Some? ==> Refs(Get(out, "transient").value) == {}
    ensures Refs(WithoutTransient(out)) == Refs(out) && ViewedModel(WithoutTransient(out)) == ViewedModel(out)
  {
    if out.Obj? {
      var less := out.fields - {"transient"};
      forall r | r in Refs(out) ensures r in Refs(Obj(less)) {
        var k :| k in out.fields && r in Refs(out.fields[k]);
        assert k in less && r in Refs(less[k]);
      }
      forall r | r in Refs(Obj(less)) ensures r in Refs(out) {
        var k :| k in less && r in Refs(less[k]);
        assert k in out.fields && r in Refs(out.fields[k]);
      }
    }
  }

  lemma OutputsRefs(items: seq<Value>)
    requires forall out <- items | Get(out, "transient").Some? :: Refs(Get(out, "transient").value) == {}
    ensures var sent := OutputsForKernel(Some(Arr(items)));
            Refs(sent) == Refs(Arr(items)) && Views(sent.items) == Views(items)
  {
    var sent := OutputsForKernel(Some(Arr(items))).items;
    forall i | 0 <= i < |items|
      ensures Refs(sent[i]) == Refs(items[i]) && ViewedModel(sent[i]) == ViewedModel(items[i])
    {
      WithoutTransientRefs(items[i]);
    }
    forall r ensures r in Refs(Arr(sent)) <==> r in Refs(Arr(items)) {
      if r in Refs(Arr(items)) {
        var i :| 0 <= i < |items| && r in Refs(items[i]);
        assert r in Refs(sent[i]);
      }
      if r in Refs(Arr(sent)) {
        var i :| 0 <= i < |sent| && r in Refs(sent[i]);
        assert r in Refs(items[i]);
      }
    }
    forall id ensures id in Views(sent) <==> id in Views(items) {
      if id in Views(items) {
        var i :| 0 <= i < |items| && ViewedModel(items[i]) == Some(id);
        assert sent[i] in sent;
      }
      if id in Views(sent) {
        var i :| 0 <= i < |sent| && ViewedModel(sent[i]) == Some(id);
        assert items[i] in items;
      }
    }
  }

  lemma AttrRefsUpdate(attrs: Attrs, key: string, e: Entry)
    requires key in attrs && attrs[key].value.Some? && e.value.Some? && Refs(e.value.value) == Refs(attrs[key].value.value)
    ensures AttrRefs(attrs[key := e]) == AttrRefs(attrs)
  {
    var after := attrs[key := e];
    forall r ensures r in AttrRefs(after) <==> r in AttrRefs(attrs) {
      if r in AttrRefs(attrs) {
        var k :| k in attrs && attrs[k].value.Some? && r in Refs(attrs[k].value.value);
        assert r in Refs(after[k].value.value);
      }
      if r in AttrRefs(after) {
        var k :| k in after && after[k].value.Some? && r in Refs(after[k].value.value);
        assert r in Refs(attrs[k].value.value);
      }
    }
  }

  function Unbook(m: Model): Model {
    Disconnected(m).(attrs := Unbooked(m))
  }

  lemma UnbookKeeps(m: Model)
    requires NamesNoModel(m)
    ensures RefsOf(Unbook(m)) == RefsOf(m) && SavedEntry(Unbook(m)) == SavedEntry(m)
    ensures forall s :: LinkBetween(Unbook(m), s) <==> LinkBetween(m, s)
  {
    var v := ValueOf(m.attrs, "outputs");
    if m.name == OUTPUT_MODEL && v.Some? && v.value.Arr? {
      OutputsRefs(v.value.items);
      var sent := OutputsForKernel(v);
      AttrRefsUpdate(m.attrs, "outputs", m.attrs["outputs"].(value := Some(sent)));
      SentTwice(v);
      assert Unbooked(Unbook(m)) == Unbooked(m);
    }
  }

  /** Every buffer of the model is saved beside a slot that is empty. */
  ghost predicate Savable(m: Model) {
    NoVoid(m.attrs) && forall k <- Unbooked(m) :: Stripped(Unbooked(m)[k])
  }

  ghost function Unbooks(models: map<Id, Model>, ids: set<Id>): map<Id, Model> {
    map id | id in models && id in ids :: Unbook(models[id])
  }

  /** load_saved of a whole block, into an empty store. */
  function LoadedAll(block: map<Id, Saved>): map<Id, Model> {
    map id <- block :: Loaded(block[id])
  }

  /** Loading a saved block into an empty store gives back every model that was saved. */
  lemma SavedBlockLoads(models: map<Id, Model>, roots: set<Id>)
    requires forall id <- KeptSet(models, roots) :: Savable(models[id])
    requires Export(models, roots).Some?
    ensures LoadedAll(Export(models, roots).value) == Unbooks(models, KeptSet(models, roots))
  {
    var block := Export(models, roots).value;
    assert block.Keys == KeptSet(models, roots);
    forall id | id in block ensures LoadedAll(block)[id] == Unbook(models[id]) {
      SavedModelRoundTrip(models[id]);
    }
    assert LoadedAll(block) == Unbooks(models, KeptSet(models, roots));
  }

  lemma UnbooksKeepRefs(models: map<Id, Model>, roots: set<Id>)
    requires forall id <- KeptSet(models, roots) :: NamesNoModel(models[id])
    ensures var after := Unbooks(models, KeptSet(models, roots));
            KeepsRefs(models, after, roots) && forall id <- after :: SavedEntry(after[id]) == SavedEntry(models[id])
  {
    var after := Unbooks(models, KeptSet(models, roots));
    forall id | id in after
      ensures SavedEntry(after[id]) == SavedEntry(models[id]) && RefsOf(after[id]) == RefsOf(models[id])
      ensures forall s :: LinkBetween(after[id], s) <==> LinkBetween(models[id], s)
    {
      UnbookKeeps(models[id]);
    }
    assert after.Keys == KeptSet(models, roots);
  }

  /** Saving what was loaded, from the same roots, gives the same block. */
  lemma SavedBlockRoundTrip(models: map<Id, Model>, roots: set<Id>)
    requires forall id <- KeptSet(models, roots) :: Savable(models[id]) && NamesNoModel(models[id])
    requires Export(models, roots).Some?
    ensures Export(LoadedAll(Export(models, roots).value), roots) == Export(models, roots)
  {
    SavedBlockLoads(models, roots);
    UnbooksKeepRefs(models, roots);
    SameExport(models, Unbooks(models, KeptSet(models, roots)), roots);
  }

  /** A state object and a list of buffers never stand for an attribute with neither. */
  lemma AttrsOfNoVoid(state: map<string, Value>, pairs: seq<Pair>)
    ensures NoVoid(AttrsOf(state, pairs))
  {
    var attrs := AttrsOf(state, pairs);
    forall k | k in attrs ensures attrs[k] != Entry(None, {}) {
      if k !in state {
        var p :| p in pairs && ValidPath(p.path) && p.path[0].key == k;
        assert Under(p, k);
        assert Buf(p.path[1..], p.bytes) in attrs[k].bufs;
      }
    }
  }

  // ---- when a second save writes the same ----

  lemma WithoutTransientRefsIn(out: Value)
    ensures Refs(WithoutTransient(out)) <= Refs(out) && ViewedModel(WithoutTransient(out)) == ViewedModel(out)
  {
    if out.Obj? {
      var less := out.fields - {"transient"};
      forall r | r in Refs(Obj(less)) ensures r in Refs(out) {
        var k :| k in less && r in Refs(less[k]);
        assert k in out.fields && r in Refs(out.fields[k]);
      }
    }
  }

  lemma OutputsRefsIn(items: seq<Value>)
    ensures var sent := OutputsForKernel(Some(Arr(items)));
            Refs(sent) <= Refs(Arr(items)) && Views(sent.items) == Views(items)
  {
    var sent := OutputsForKernel(Some(Arr(items))).items;
    forall i | 0 <= i < |items|
      ensures Refs(sent[i]) <= Refs(items[i]) && ViewedModel(sent[i]) == ViewedModel(items[i])
    {
      WithoutTransientRefsIn(items[i]);
    }
    forall r | r in Refs(Arr(sent)) ensures r in Refs(Arr(items)) {
      var i :| 0 <= i < |sent| && r in Refs(sent[i]);
      assert r in Refs(items[i]);
    }
    SameViews(items, sent);
  }

  lemma SameViews(items: seq<Value>, sent: seq<Value>)
    requires |sent| == |items| && forall i | 0 <= i < |items| :: ViewedModel(sent[i]) == ViewedModel(items[i])
    ensures Views(sent) == Views(items)
  {
    forall id ensures id in Views(sent) <==> id in Views(items) {
      if id in Views(items) {
        var i :| 0 <= i < |items| && ViewedModel(items[i]) == Some(id);
        assert sent[i] in sent;
      }
      if id in Views(sent) {
        var i :| 0 <= i < |sent| && ViewedModel(sent[i]) == Some(id);
        assert items[i] in items;
      }
    }
  }

  lemma AttrRefsLess(attrs: Attrs, key: string, e: Entry)
    requires key in attrs && attrs[key].value.Some? && e.value.Some? && Refs(e.value.value) <= Refs(attrs[key].value.value)
    ensures AttrRefs(attrs[key := e]) <= AttrRefs(attrs)
  {
    var after := attrs[key := e];
    forall r | r in AttrRefs(after) ensures r in AttrRefs(attrs) {
      var k :| k in after && after[k].value.Some? && r in Refs(after[k].value.value);
      assert r in Refs(attrs[k].value.value);
    }
  }

  lemma UnbookLinks(m: Model)
    ensures forall s :: LinkBetween(Unbook(m), s) <==> LinkBetween(m, s)
  {
  }

  lemma UnbookSaved(m: Model)
    ensures SavedEntry(Unbook(m)) == SavedEntry(m)
  {
    SentTwice(ValueOf(m.attrs, "outputs"));
    assert Unbooked(Unbook(m)) == Unbooked(m);
  }

  lemma UnbookRefs(m: Model)
    ensures RefsOf(Unbook(m)) <= RefsOf(m)
  {
    var v := ValueOf(m.attrs, "outputs");
    if m.name == OUTPUT_MODEL && v.Some? && v.value.Arr? {
      OutputsRefsIn(v.value.items);
      AttrRefsLess(m.attrs, "outputs", m.attrs["outputs"].(value := Some(OutputsForKernel(v))));
    }
  }

  /** Without its display bookkeeping a model names no model it did not name before. */
  lemma UnbookNamesNoMore(m: Model)
    ensures RefsOf(Unbook(m)) <= RefsOf(m) && SavedEntry(Unbook(m)) == SavedEntry(m)
    ensures forall s :: LinkBetween(Unbook(m), s) <==> LinkBetween(m, s)
  {
    UnbookRefs(m);
    UnbookSaved(m);
    UnbookLinks(m);
  }

  lemma UnbookedReached(models: map<Id, Model>, roots: set<Id>, id: Id)
    requires Reached(Unbooks(models, models.Keys), roots, id)
    ensures Reached(models, roots, id)
    ensures Reached(Unbooks(models, KeptSet(models, roots)), roots, id)
  {
    var all, kept := Unbooks(models, models.Keys), Unbooks(models, KeptSet(models, roots));
    var path :| Path(all, roots, path, id);
    assert forall x <- path :: x in all;
    forall i | 0 <= i < |path| - 1 ensures path[i] in models && path[i + 1] in RefsOf(models[path[i]]) {
      assert path[i] in all;
      UnbookNamesNoMore(models[path[i]]);
    }
    assert Path(models, roots, path, id);
    forall i | 0 <= i < |path| ensures path[i] in kept && kept[path[i]] == all[path[i]] {
      assert Path(models, roots, path[..i + 1], path[i]);
    }
    assert Path(kept, roots, path, id);
  }

  lemma LoadedReached(models: map<Id, Model>, roots: set<Id>, id: Id)
    requires Reached(Unbooks(models, KeptSet(models, roots)), roots, id)
    ensures Reached(Unbooks(models, models.Keys), roots, id)
  {
    var all, kept := Unbooks(models, models.Keys), Unbooks(models, KeptSet(models, roots));
    var path :| Path(kept, roots, path, id);
    assert forall x <- path :: x in all && all[x] == kept[x];
    assert Path(all, roots, path, id);
  }

  lemma LoadedKept(models: map<Id, Model>, roots: set<Id>)
    ensures var all, kept := Unbooks(models, models.Keys), Unbooks(models, KeptSet(models, roots));
            ReachedSet(kept, roots) == ReachedSet(all, roots) && KeptSet(kept, roots) == KeptSet(all, roots)
  {
    var all, kept := Unbooks(models, models.Keys), Unbooks(models, KeptSet(models, roots));
    ReachedHasModels(all, roots);
    ReachedHasModels(kept, roots);
    forall id ensures Reached(kept, roots, id) <==> Reached(all, roots, id) {
      if Reached(all, roots, id) { UnbookedReached(models, roots, id); }
      if Reached(kept, roots, id) { LoadedReached(models, roots, id); }
    }
    assert ReachedSet(kept, roots) == ReachedSet(all, roots);
    forall id | Kept(all, roots, id) ensures Kept(kept, roots, id) { KeptInAll(models, roots, id); }
    assert KeptSet(kept, roots) == KeptSet(all, roots);
  }

  lemma KeptInAll(models: map<Id, Model>, roots: set<Id>, id: Id)
    requires Kept(Unbooks(models, models.Keys), roots, id)
    ensures Kept(models, roots, id)
  {
    var all := Unbooks(models, models.Keys);
    if Reached(all, roots, id) {
      UnbookedReached(models, roots, id);
    } else {
      UnbookNamesNoMore(models[id]);
      forall x | x in ReachedSet(all, roots) ensures x in ReachedSet(models, roots) { UnbookedReached(models, roots, x); }
    }
  }

  lemma RootReached(models: map<Id, Model>, roots: set<Id>)
    ensures ReachedSet(models, roots) != {} <==> exists id <- roots :: id in models
  {
    if r: Id :| r in ReachedSet(models, roots) {
      var path :| Path(models, roots, path, r);
      assert path[0] in models;
    }
    forall id | id in roots && id in models ensures id in ReachedSet(models, roots) { ReachedRoot(models, roots, id); }
  }

  lemma UnbooksSaved(models: map<Id, Model>, roots: set<Id>)
    ensures var after := Unbooks(models, KeptSet(models, roots));
            forall id <- after :: id in models && SavedEntry(after[id]) == SavedEntry(models[id])
  {
    forall id | id in models ensures SavedEntry(Unbook(models[id])) == SavedEntry(models[id]) {
      UnbookNamesNoMore(models[id]);
    }
  }

  lemma RootKept(models: map<Id, Model>, roots: set<Id>)
    requires ReachedSet(models, roots) != {}
    ensures ReachedSet(Unbooks(models, KeptSet(models, roots)), roots) != {}
  {
    RootReached(models, roots);
    var r :| r in roots && r in models;
    ReachedRoot(models, roots, r);
    assert r in Unbooks(models, KeptSet(models, roots));
    RootReached(Unbooks(models, KeptSet(models, roots)), roots);
  }

  /** A save made again from what a save wrote is the same block exactly when following no
      reference out of display bookkeeping keeps the same models: what the block leaves out of an
      Output widget may have named a model. */
  lemma SavedAgainExactly(models: map<Id, Model>, roots: set<Id>)
    requires forall id <- KeptSet(models, roots) :: Savable(models[id])
    requires Export(models, roots).Some?
    ensures Export(LoadedAll(Export(models, roots).value), roots) == Export(models, roots)
            <==> KeptSet(Unbooks(models, models.Keys), roots) == KeptSet(models, roots)
  {
    SavedBlockLoads(models, roots);
    LoadedKept(models, roots);
    RootKept(models, roots);
    UnbooksSaved(models, roots);
    SameBlocks(models, Unbooks(models, KeptSet(models, roots)), roots);
  }

  const HOLDER := Model("OutputModel", "", "", map["outputs" := Entry(Some(Arr([
    Obj(map["transient" := Str("IPY_MODEL_b")])])), {})], true, map[], None, map[], None, false, false, None, None)

  lemma HolderNames()
    ensures "b" in RefsOf(HOLDER)
  {
    var out := Obj(map["transient" := Str("IPY_MODEL_b")]);
    assert "IPY_MODEL_b"[|MODEL_REF|..] == "b";
    assert RefOf("IPY_MODEL_b") == Some("b");
    assert "b" in Refs(out.fields["transient"]);
    assert "b" in Refs(out);
    assert Arr([out]).items[0] == out;
    assert "b" in Refs(Arr([out]));
    assert HOLDER.attrs["outputs"].value.value == Arr([out]);
  }

  /** A model named in display bookkeeping alone is saved, and is gone from the next save. */
  lemma BookkeepingNames()
    ensures var models := map["a" := HOLDER, "b" := Blank("", "", "", true)];
            Savable(models["a"]) && Savable(models["b"])
            && "b" in KeptSet(models, {"a"}) && "b" !in KeptSet(Unbooks(models, models.Keys), {"a"})
  {
    var models := map["a" := HOLDER, "b" := Blank("", "", "", true)];
    HolderNames();
    ReachedRoot(models, {"a"}, "a");
    ReachedNext(models, {"a"}, "a", "b");
    var all := Unbooks(models, models.Keys);
    HolderNamesNone();
    assert Walking(all, {"a"}, {"a"}, {"a"}) by { ReachedRoot(all, {"a"}, "a"); }
    WalkEnds(all, {"a"}, {"a"}, "b");
    assert !IsLinkModel(all["b"]);
  }

  lemma HolderNamesNone()
    ensures RefsOf(Unbook(HOLDER)) == {} && Savable(HOLDER)
  {
    var out := Obj(map["transient" := Str("IPY_MODEL_b")]);
    var sent := OutputsForKernel(Some(Arr([out])));
    assert out.fields - {"transient"} == map[];
    assert sent == Arr([Obj(map[])]);
    assert Refs(Obj(map[])) == {};
    assert Refs(sent) == {};
    var after := Unbooked(HOLDER);
    assert ValueOf(HOLDER.attrs, "outputs") == Some(Arr([out]));
    assert after["outputs"].value == Some(sent) && after.Keys == {"outputs"};
    StrippedIffSlotsEmpty(after["outputs"]);
    assert ViewedModel(Obj(map[])) == None;
    forall x | x in sent.items ensures ViewedModel(x) == None {}
    assert Views(sent.items) == {};
    assert OutputsOf(Unbook(HOLDER)) == sent.items;
    assert AttrRefs(after) == {};
  }
}
