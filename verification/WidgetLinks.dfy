/** A change of one attribute going on along the links: it reaches everything it should, and the
    guard on the number of copies never fires on a store with few enough links. */
module WidgetLinks {
  import opened Json
  import opened Attributes
  import opened Sets
  import opened WidgetStore
  import opened WidgetInvariants
  import opened WidgetSteps
  import opened WidgetFlow
  import opened WidgetLinkSteps

  // ---- what a copy changes ----

  function ValueAt(st: Store, x: End): Entry {
    if x.model in st.models then AttrOf(st.models[x.model], x.attr) else Entry(None, {})
  }

  /** The same attributes, connections and links. */
  ghost predicate SameAttrs(st: Store, st2: Store) {
    && st2.models.Keys == st.models.Keys && st2.links == st.links && st2.linkIndex == st.linkIndex
    && forall id <- st.models :: st2.models[id].attrs == st.models[id].attrs && st2.models[id].live == st.models[id].live
  }

  lemma {:induction false} FlushAllKeepsAttrs(st: Store, order: seq<Id>, now: Time)
    ensures SameAttrs(st, FlushAll(st, order, now))
    decreases |order|
  {
    if order != [] { FlushAllKeepsAttrs(SendOutputs(st, order[0], now, false), order[1..], now); }
  }

  lemma PutUpdateKeepsAttrs(st: Store, id: Id, update: Attrs, cell: Option<string>, now: Time)
    requires id in st.models
    ensures SameAttrs(st, PutUpdate(st, id, update, cell, now))
  {
  }

  lemma TakeHeldKeepsAttrs(st: Store, id: Id, update: Attrs)
    requires id in st.models
    ensures SameAttrs(st, Hold(st, id, update)) && SameAttrs(st, TakeHeld(Hold(st, id, update), id))
  {
  }

  lemma SendUpdateKeepsAttrs(st: Store, id: Id, update: Attrs, cell: Option<string>, e: Env)
    requires id in st.models
    ensures SameAttrs(st, SendUpdate(st, id, update, cell, e))
  {
    FlushAllKeepsAttrs(st, e.order, e.now);
    PutUpdateKeepsAttrs(FlushAll(st, e.order, e.now), id, update, cell, e.now);
  }

  lemma NameCellKeepsAttrs(st: Store, id: Id, cell: Option<string>)
    requires id in st.models
    ensures SameAttrs(st, NameCell(st, id, cell))
  {
  }

  lemma SameAttrsTwice(a: Store, b: Store, c: Store)
    requires SameAttrs(a, b) && SameAttrs(b, c)
    ensures SameAttrs(a, c)
  {
  }

  lemma QueueKeepsAttrs(st: Store, id: Id, update: Attrs, cell: Option<string>, e: Env)
    requires id in st.models
    ensures SameAttrs(st, Queue(st, id, update, cell, e))
  {
    TakeHeldKeepsAttrs(st, id, update);
    var m, held := st.models[id], Hold(st, id, update);
    if Holds(m, e.now) {
      NameCellKeepsAttrs(held, id, cell);
      SameAttrsTwice(st, held, NameCell(held, id, cell));
    } else {
      var taken, named := TakeHeld(held, id), if cell.Some? then cell else m.pendingCell;
      SendUpdateKeepsAttrs(taken, id, Merge(m.pending, update), named, e);
      SameAttrsTwice(st, taken, SendUpdate(taken, id, Merge(m.pending, update), named, e));
    }
  }

  lemma SameValues(st: Store, st2: Store)
    requires SameAttrs(st, st2)
    ensures forall x :: ValueAt(st2, x) == ValueAt(st, x)
    ensures forall id :: IsLive(st2, id) <==> IsLive(st, id)
  {
  }

  /** One attribute is `v` now, and nothing else about attributes, connections or links changed. */
  ghost predicate Writes(st: Store, st2: Store, at: End, v: Entry) {
    && st2.models.Keys == st.models.Keys && st2.links == st.links && st2.linkIndex == st.linkIndex
    && (forall id :: IsLive(st2, id) <==> IsLive(st, id))
    && (forall x | x != at :: ValueAt(st2, x) == ValueAt(st, x))
    && ValueAt(st2, at) == v
  }

  lemma SetAttrsSets(st: Store, to: End, v: Entry)
    requires to.model in st.models
    ensures Writes(st, SetAttrs(st, to.model, map[to.attr := v]), to, Norm(v))
  {
    var m := st.models[to.model];
    var attrs := Merge(m.attrs, map[to.attr := v]);
    assert attrs == m.attrs[to.attr := Norm(v)];
    assert SetAttrs(st, to.model, map[to.attr := v]) == st.(models := st.models[to.model := m.(attrs := attrs)]);
  }

  lemma LocalChangeSets(st: Store, to: End, v: Entry, cell: Option<string>, e: Env)
    requires to.model in st.models
    ensures Writes(st, LocalChange(st, to.model, map[to.attr := v], cell, e), to, Norm(v))
  {
    var st1 := SetAttrs(st, to.model, map[to.attr := v]);
    SetAttrsSets(st, to, v);
    QueueKeepsAttrs(st1, to.model, map[to.attr := v], cell, e);
    SameValues(st1, Queue(st1, to.model, map[to.attr := v], cell, e));
  }

  /** A copy happens exactly when the far end is connected, the near one has something, and they
      differ; then the far end has what the near one has, with the slots of its buffers empty. It
      changes no other attribute, and says whether it happened. */
  lemma CopyAttrSets(st: Store, from: End, to: End, e: Env)
    ensures var c := CopyAttr(st, from, to, e);
            var v := ValueAt(st, from);
            && (c.changed <==> IsLive(st, to.model) && v != Entry(None, {}) && ValueAt(st, to) != v)
            && Writes(st, c.st, to, if c.changed then Norm(v) else ValueAt(st, to))
  {
    var v := ValueAt(st, from);
    if CopyAttr(st, from, to, e).changed {
      LocalChangeSets(Emit(st, Notify(to.model)), to, v, None, e);
    }
  }

  // ---- the links stay ----

  lemma {:induction false} VisitKeepsLinks(st: Store, at: End, ids: seq<Id>, queue: seq<End>, steps: nat, e: Env)
    requires steps <= LINK_STEP_LIMIT
    ensures Visit(st, at, ids, queue, steps, e).st.links == st.links
    ensures Visit(st, at, ids, queue, steps, e).st.linkIndex == st.linkIndex
    decreases |ids|
  {
    if ids != [] {
      VisitIs(st, at, ids, queue, steps, e);
      VisitOneIs(st, at, ids[0], queue, steps, e);
      var copy := CopyOf(st, at, ids[0]);
      if copy.Some? { CopyAttrSets(st, copy.value.from, copy.value.to, e); }
      var v := VisitOne(st, at, ids[0], queue, steps, e);
      if !v.stopped { VisitKeepsLinks(v.st, at, ids[1..], v.queue, v.steps, e); }
    }
  }

  lemma {:induction false} PropagateKeepsLinks(st: Store, queue: seq<End>, steps: nat, e: Env)
    requires steps <= LINK_STEP_LIMIT
    ensures Propagate(st, queue, steps, e).st.links == st.links
    ensures Propagate(st, queue, steps, e).st.linkIndex == st.linkIndex
    decreases LINK_STEP_LIMIT - steps, |queue|
  {
    if queue != [] {
      VisitKeepsLinks(st, queue[0], LinksAt(st, queue[0].model), queue[1..], steps, e);
      var v := Visit(st, queue[0], LinksAt(st, queue[0].model), queue[1..], steps, e);
      if !v.stopped { PropagateKeepsLinks(v.st, v.queue, v.steps, e); }
    }
  }

  lemma ApplyLinkKeepsLinks(st: Store, id: Id, e: Env)
    ensures ApplyLink(st, id, e).links == st.links
  {
    if id in st.links {
      var link := st.links[id];
      CopyAttrSets(st, link.source, link.target, e);
      PropagateKeepsLinks(CopyAttr(st, link.source, link.target, e).st, [link.target], 0, e);
    }
  }

  lemma {:induction false} ApplyLinksKeepLinks(st: Store, ids: seq<Id>, e: Env)
    ensures ApplyLinks(st, ids, e).links == st.links
    decreases |ids|
  {
    if ids != [] {
      ApplyLinkKeepsLinks(st, ids[0], e);
      ApplyLinksKeepLinks(ApplyLink(st, ids[0], e), ids[1..], e);
    }
  }

  // ---- the walk ----

  function EndsOfLinks(links: map<Id, Link>, ids: set<Id>): set<(Id, End)>
    requires ids <= links.Keys
  {
    (set l <- ids :: (l, links[l].source)) + (set l <- ids :: (l, links[l].target))
  }

  /** The pairs of a link and an end of it: at most two for each link. */
  function LinkEnds(links: map<Id, Link>): set<(Id, End)> {
    EndsOfLinks(links, links.Keys)
  }

  lemma EndsOfOneMore(links: map<Id, Link>, ids: set<Id>, l: Id)
    requires ids <= links.Keys && l in ids
    ensures EndsOfLinks(links, ids) == EndsOfLinks(links, ids - {l}) + {(l, links[l].source), (l, links[l].target)}
  {
  }

  lemma PairBound<T>(rest: set<T>, x: T, y: T)
    ensures |rest + {x, y}| <= |rest| + 2
  {
    assert {x, y} == {x} + {y};
  }

  lemma {:induction false} EndsOfLinksBound(links: map<Id, Link>, ids: set<Id>)
    requires ids <= links.Keys
    ensures |EndsOfLinks(links, ids)| <= 2 * |ids|
    decreases |ids|
  {
    if ids != {} {
      var l :| l in ids;
      EndsOfLinksBound(links, ids - {l});
      EndsOfOneMore(links, ids, l);
      PairBound(EndsOfLinks(links, ids - {l}), (l, links[l].source), (l, links[l].target));
    } else {
      assert EndsOfLinks(links, ids) == {};
    }
  }

  lemma LinkEndsBound(links: map<Id, Link>)
    ensures |LinkEnds(links)| <= 2 * |links|
  {
    EndsOfLinksBound(links, links.Keys);
  }

  /** The far end of every copy out of `x` that link `l` would make holds `v`, if it is connected. */
  predicate FarEndHas(st: Store, l: Id, x: End, v: Entry)
    requires l in st.links
  {
    var copy := CopyFrom(st.links[l], x);
    copy.Some? && IsLive(st, copy.value.to.model) ==> ValueAt(st, copy.value.to) == v
  }

  /** Where a walk that carries `v` stands: the ends done, the ends to do, and the copies made. */
  ghost predicate Walking(st0: Store, st: Store, v: Entry, done: set<End>, todo: seq<End>, used: set<(Id, End)>) {
    && Stripped(v) && v != Entry(None, {})
    && st.links == st0.links && st.linkIndex == st0.linkIndex && st.models.Keys == st0.models.Keys
    && (forall id :: IsLive(st, id) <==> IsLive(st0, id))
    && IndexOk(st0.links, st0.linkIndex)
    && NoRepeats(todo) && (forall x <- todo :: x !in done)
    && (forall x | x in done || x in todo :: ValueAt(st, x) == v)
    && (forall x | x !in done && x !in todo :: ValueAt(st, x) == ValueAt(st0, x))
    && used <= LinkEnds(st0.links)
  }

  /** Every link out of an end that is done was copied. */
  ghost predicate Settled(st: Store, v: Entry, done: set<End>) {
    forall x, l | x in done && l in st.links :: FarEndHas(st, l, x, v)
  }

  /** A link copies out of an end once at most, so there is a step left for it. */
  lemma StepLeft(links: map<Id, Link>, used: set<(Id, End)>, id: Id, at: End)
    requires used <= LinkEnds(links) && (id, at) !in used && id in links && CopyFrom(links[id], at).Some?
    requires 2 * |links| <= LINK_STEP_LIMIT
    ensures (id, at) in LinkEnds(links) && |used + {(id, at)}| == |used| + 1 <= LINK_STEP_LIMIT
  {
    assert (id, at) in LinkEnds(links) by {
      if links[id].source == at {
        assert (id, at) in set l <- links.Keys :: (l, links[l].source);
      } else {
        assert (id, at) in set l <- links.Keys :: (l, links[l].target);
      }
    }
    LinkEndsBound(links);
    SubsetSize(used + {(id, at)}, LinkEnds(links));
  }

  /** A copy of `v` out of an end that holds it. */
  lemma CopyWalks(st0: Store, st: Store, v: Entry, done: set<End>, todo: seq<End>, used: set<(Id, End)>, used2: set<(Id, End)>,
                  to: End, c: Copied)
    requires Walking(st0, st, v, done, todo, used) && used2 <= LinkEnds(st0.links)
    requires Writes(st, c.st, to, if c.changed then v else ValueAt(st, to))
    requires c.changed <==> IsLive(st, to.model) && ValueAt(st, to) != v
    ensures Walking(st0, c.st, v, done, if c.changed then todo + [to] else todo, used2)
    ensures forall x, l | l in st.links && FarEndHas(st, l, x, v) :: FarEndHas(c.st, l, x, v)
    ensures IsLive(c.st, to.model) ==> ValueAt(c.st, to) == v
  {
    if c.changed { assert to !in todo && to !in done; }
  }

  lemma VisitOneWalks(st0: Store, st: Store, v: Entry, done: set<End>, todo: seq<End>, used: set<(Id, End)>,
                      at: End, id: Id, steps: nat, e: Env)
    requires Walking(st0, st, v, done, todo, used) && at in done
    requires (id, at) !in used && steps == |used| && 2 * |st0.links| <= LINK_STEP_LIMIT
    ensures var w := VisitOne(st, at, id, todo, steps, e);
            && !w.stopped
            && (w.steps == |used| || w.steps == |used + {(id, at)}|)
            && Walking(st0, w.st, v, done, w.queue, if w.steps == steps then used else used + {(id, at)})
            && (id in w.st.links ==> FarEndHas(w.st, id, at, v))
            && (forall x, l | l in st.links && FarEndHas(st, l, x, v) :: FarEndHas(w.st, l, x, v))
  {
    var copy := CopyOf(st, at, id);
    if copy.Some? {
      var to := copy.value.to;
      StepLeft(st0.links, used, id, at);
      assert copy.value.from == at;
      CopyAttrSets(st, at, to, e);
      CopyWalks(st0, st, v, done, todo, used, used + {(id, at)}, to, CopyAttr(st, at, to, e));
    }
  }

  /** One changed end: every link at its model is looked at once. */
  lemma {:induction false} VisitWalks(st0: Store, st: Store, v: Entry, done: set<End>, todo: seq<End>, used: set<(Id, End)>,
                                      at: End, ids: seq<Id>, steps: nat, e: Env) returns (used2: set<(Id, End)>)
    requires Walking(st0, st, v, done, todo, used) && at in done
    requires NoRepeats(ids) && (forall id <- ids :: (id, at) !in used)
    requires steps == |used| && 2 * |st0.links| <= LINK_STEP_LIMIT && steps <= LINK_STEP_LIMIT
    ensures var w := Visit(st, at, ids, todo, steps, e);
            && !w.stopped && w.steps == |used2|
            && Walking(st0, w.st, v, done, w.queue, used2)
            && used <= used2 && (forall p | p in used2 && p !in used :: p.1 == at)
            && (forall id <- ids | id in st.links :: FarEndHas(w.st, id, at, v))
            && (forall x, l | l in st.links && FarEndHas(st, l, x, v) :: FarEndHas(w.st, l, x, v))
    decreases |ids|
  {
    if ids == [] {
      used2 := used;
    } else {
      var id := ids[0];
      VisitIs(st, at, ids, todo, steps, e);
      VisitOneWalks(st0, st, v, done, todo, used, at, id, steps, e);
      var w := VisitOne(st, at, id, todo, steps, e);
      var used1 := if w.steps == steps then used else used + {(id, at)};
      used2 := VisitWalks(st0, w.st, v, done, w.queue, used1, at, ids[1..], w.steps, e);
    }
  }

  /** The ends propagate takes off its queue, in order. */
  function Dequeued(st: Store, queue: seq<End>, steps: nat, e: Env): seq<End>
    requires steps <= LINK_STEP_LIMIT
    decreases LINK_STEP_LIMIT - steps, |queue|
  {
    if queue == [] then []
    else
      var w := Visit(st, queue[0], LinksAt(st, queue[0].model), queue[1..], steps, e);
      [queue[0]] + if w.stopped then [] else Dequeued(w.st, w.queue, w.steps, e)
  }

  lemma PropagateIs(st: Store, queue: seq<End>, steps: nat, e: Env)
    requires steps <= LINK_STEP_LIMIT && queue != []
    ensures var w := Visit(st, queue[0], LinksAt(st, queue[0].model), queue[1..], steps, e);
            !w.stopped ==>
              && Propagate(st, queue, steps, e) == Propagate(w.st, w.queue, w.steps, e)
              && Dequeued(st, queue, steps, e) == [queue[0]] + Dequeued(w.st, w.queue, w.steps, e)
  {
  }

  /** Where the walk ends when it starts from an intermediate point. */
  ghost predicate Finishes(st0: Store, v: Entry, done: set<End>, todo: seq<End>, w: Walk, trace: seq<End>) {
    && !w.stopped && w.steps <= 2 * |st0.links|
    && NoRepeats(trace) && (forall x <- trace :: x !in done) && (forall x <- todo :: x in trace)
    && Settled(w.st, v, done + Elems(trace))
    && (exists used :: Walking(st0, w.st, v, done + Elems(trace), [], used))
  }

  lemma FinishesLater(st0: Store, v: Entry, done: set<End>, todo: seq<End>, queue: seq<End>, w: Walk, rest: seq<End>)
    requires todo != [] && todo[0] !in done && (forall x <- todo[1..] :: x in queue)
    requires Finishes(st0, v, done + {todo[0]}, queue, w, rest)
    ensures Finishes(st0, v, done, todo, w, [todo[0]] + rest)
  {
    var trace := [todo[0]] + rest;
    assert done + Elems(trace) == done + {todo[0]} + Elems(rest);
    forall x | x in todo ensures x in trace {
      if x != todo[0] { assert x in todo[1..]; }
    }
  }

  lemma {:induction false} PropagateWalks(st0: Store, st: Store, v: Entry, done: set<End>, todo: seq<End>, used: set<(Id, End)>,
                                          steps: nat, e: Env)
    requires Walking(st0, st, v, done, todo, used) && Settled(st, v, done)
    requires steps == |used| <= LINK_STEP_LIMIT && 2 * |st0.links| <= LINK_STEP_LIMIT
    requires forall p <- used :: p.1 in done
    ensures Finishes(st0, v, done, todo, Propagate(st, todo, steps, e), Dequeued(st, todo, steps, e))
    decreases LINK_STEP_LIMIT - steps, |todo|
  {
    if todo == [] {
      LinkEndsBound(st0.links);
      SubsetSize(used, LinkEnds(st0.links));
      assert done + Elems<End>([]) == done;
    } else {
      var at, ids := todo[0], LinksAt(st, todo[0].model);
      StartVisit(st0, st, v, done, todo, used);
      var used2 := VisitWalks(st0, st, v, done + {at}, todo[1..], used, at, ids, steps, e);
      var w := Visit(st, at, ids, todo[1..], steps, e);
      VisitSettles(st0, st, w.st, v, done, at);
      PropagateIs(st, todo, steps, e);
      VisitKeepsQueue(st, at, ids, todo[1..], steps, e);
      PropagateWalks(st0, w.st, v, done + {at}, w.queue, used2, w.steps, e);
      FinishesLater(st0, v, done, todo, w.queue, Propagate(w.st, w.queue, w.steps, e), Dequeued(w.st, w.queue, w.steps, e));
    }
  }

  lemma StartVisit(st0: Store, st: Store, v: Entry, done: set<End>, todo: seq<End>, used: set<(Id, End)>)
    requires Walking(st0, st, v, done, todo, used) && todo != [] && forall p <- used :: p.1 in done
    ensures Walking(st0, st, v, done + {todo[0]}, todo[1..], used)
    ensures NoRepeats(LinksAt(st, todo[0].model)) && forall id <- LinksAt(st, todo[0].model) :: (id, todo[0]) !in used
  {
    assert forall x :: x in todo <==> x == todo[0] || x in todo[1..];
  }

  lemma {:induction false} VisitKeepsQueue(st: Store, at: End, ids: seq<Id>, todo: seq<End>, steps: nat, e: Env)
    requires steps <= LINK_STEP_LIMIT
    ensures forall x <- todo :: x in Visit(st, at, ids, todo, steps, e).queue
    decreases |ids|
  {
    if ids != [] {
      VisitIs(st, at, ids, todo, steps, e);
      var w := VisitOne(st, at, ids[0], todo, steps, e);
      if !w.stopped { VisitKeepsQueue(w.st, at, ids[1..], w.queue, w.steps, e); }
    }
  }

  lemma VisitSettles(st0: Store, st: Store, st2: Store, v: Entry, done: set<End>, at: End)
    requires IndexOk(st0.links, st0.linkIndex) && st.links == st0.links && st.linkIndex == st0.linkIndex
    requires st2.links == st.links && Settled(st, v, done)
    requires forall id <- LinksAt(st, at.model) | id in st.links :: FarEndHas(st2, id, at, v)
    requires forall x, l | l in st.links && FarEndHas(st, l, x, v) :: FarEndHas(st2, l, x, v)
    ensures Settled(st2, v, done + {at})
  {
    forall x, l | x in done + {at} && l in st2.links ensures FarEndHas(st2, l, x, v) {
      if x in done {
        assert FarEndHas(st, l, x, v);
      } else if CopyFrom(st2.links[l], at).Some? {
        assert Touches(st0.links[l], at.model);
        assert Indexed(st0.linkIndex, at.model, l);
      }
    }
  }

  /** A change of one attribute, taken by its model, goes on along the links. Every attribute is
      taken up at most once; at most two copies are made for each link, so the step limit is never
      reached on 5000 links or fewer; in the end every link out of an attribute that changed has
      the same value at its far end, if that is connected; and no other attribute changed. */
  lemma PropagationSettles(st: Store, at: End, e: Env)
    requires IndexOk(st.links, st.linkIndex) && 2 * |st.links| <= LINK_STEP_LIMIT
    requires Stripped(ValueAt(st, at)) && ValueAt(st, at) != Entry(None, {})
    ensures var w := Propagate(st, [at], 0, e);
            var changed := Dequeued(st, [at], 0, e);
            var v := ValueAt(st, at);
            && !w.stopped && w.steps <= 2 * |st.links|
            && NoRepeats(changed) && at in changed
            && (forall x <- changed :: ValueAt(w.st, x) == v)
            && (forall x | x !in changed :: ValueAt(w.st, x) == ValueAt(st, x))
            && w.st.links == st.links
            && (forall x, l | x in changed && l in st.links :: FarEndHas(w.st, l, x, v))
  {
    var v := ValueAt(st, at);
    assert Walking(st, st, v, {}, [at], {});
    PropagateWalks(st, st, v, {}, [at], {}, 0, e);
    var w, changed := Propagate(st, [at], 0, e), Dequeued(st, [at], 0, e);
    assert {} + Elems(changed) == Elems(changed);
    assert forall x :: x in Elems(changed) <==> x in changed;
    forall x, l | x in changed && l in st.links ensures FarEndHas(w.st, l, x, v) {
      assert x in Elems(changed);
    }
  }

  /** A link that applies gives its target the source's value, whatever links go on from the
      target; the slots of the buffers apart, the source keeps it too. */
  lemma LinkApplies(st: Store, id: Id, e: Env)
    requires IndexOk(st.links, st.linkIndex) && 2 * |st.links| <= LINK_STEP_LIMIT && id in st.links
    requires IsLive(st, st.links[id].source.model) && IsLive(st, st.links[id].target.model)
    requires ValueAt(st, st.links[id].source) != Entry(None, {})
    ensures var v, st2 := ValueAt(st, st.links[id].source), ApplyLink(st, id, e);
            && Norm(ValueAt(st2, st.links[id].target)) == Norm(v) == Norm(ValueAt(st2, st.links[id].source))
            && (Stripped(v) ==> ValueAt(st2, st.links[id].target) == v == ValueAt(st2, st.links[id].source))
  {
    var link := st.links[id];
    var v := ValueAt(st, link.source);
    CopyAttrSets(st, link.source, link.target, e);
    var c := CopyAttr(st, link.source, link.target, e);
    NormIdempotent(v);
    if c.changed {
      PropagationSettles(c.st, link.target, e);
      assert ValueAt(c.st, link.source) == v || ValueAt(c.st, link.source) == Norm(v);
    }
  }

  // ---- a change of one attribute, from its message to the end of its links ----

  lemma ArmKeepsAttrs(st: Store, id: Id, delay: Time)
    requires id in st.models
    ensures SameAttrs(st, Arm(st, id, delay))
  {
  }

  lemma SendOutputsKeepsAttrs(st: Store, id: Id, now: Time, paced: bool)
    ensures SameAttrs(st, SendOutputs(st, id, now, paced))
  {
  }

  lemma PacedFlushKeepsAttrs(st: Store, id: Id, now: Time)
    ensures SameAttrs(st, PacedFlush(st, id, now))
  {
    PacedFlushIs(st, id, now);
    if CanGo(st, id) {
      if PacedNow(st.models[id], now) {
        SendOutputsKeepsAttrs(st, id, now, true);
      } else if !st.models[id].flushScheduled {
        ArmKeepsAttrs(st, id, OUTPUT_FLUSH - Since(now, st.models[id].outSentAt.value));
      }
    }
  }

  lemma CaptureListsKeepAttrs(st: Store, capture: map<string, seq<Id>>)
    ensures SameAttrs(st, st.(capture := capture))
  {
  }

  lemma CaptureChangedKeepsAttrs(st: Store, id: Id, oldMsg: string, newMsg: string, now: Time)
    ensures SameAttrs(st, CaptureChanged(st, id, oldMsg, newMsg, now))
  {
    var ended := EndCapture(st, oldMsg, id);
    var st1 := if oldMsg != "" then PacedFlush(ended, id, now) else st;
    EndCaptureIs(st, oldMsg, id);
    CaptureListsKeepAttrs(st, ended.capture);
    PacedFlushKeepsAttrs(ended, id, now);
    SameAttrsTwice(st, ended, PacedFlush(ended, id, now));
    CaptureListsKeepAttrs(st1, AddCapture(st1, newMsg, id).capture);
    SameAttrsTwice(st, st1, AddCapture(st1, newMsg, id));
  }

  /** The change of `at` to `v` went on along the links: the ends in `changed`, and no other, have
      `v` now, and every link out of one of them agrees. */
  ghost predicate Settles(st: Store, st2: Store, at: End, v: Entry, changed: seq<End>) {
    && NoRepeats(changed) && at in changed
    && (forall x <- changed :: ValueAt(st2, x) == v)
    && (forall x | x !in changed :: ValueAt(st2, x) == ValueAt(st, x))
    && st2.links == st.links
    && (forall x, l | x in changed && l in st.links :: FarEndHas(st2, l, x, v))
  }

  lemma FollowSettles(st: Store, st1: Store, at: End, v: Entry, e: Env) returns (changed: seq<End>)
    requires IndexOk(st.links, st.linkIndex) && 2 * |st.links| <= LINK_STEP_LIMIT
    requires Writes(st, st1, at, v) && Stripped(v) && v != Entry(None, {}) && at.model in st.linkIndex
    ensures Settles(st, Propagate(st1, [at], 0, e).st, at, v, changed)
  {
    PropagationSettles(st1, at, e);
    changed := Dequeued(st1, [at], 0, e);
  }

  lemma NothingToFollow(st: Store, st1: Store, at: End, v: Entry)
    requires IndexOk(st.links, st.linkIndex) && Writes(st, st1, at, v) && at.model !in st.linkIndex
    ensures Settles(st, st1, at, v, [at])
  {
    forall l | l in st.links ensures CopyFrom(st.links[l], at).None? {
      assert !Indexed(st.linkIndex, at.model, l);
    }
  }

  /** A change of one attribute is followed along the links of its model, if it has any. */
  lemma FollowOneKey(st: Store, st1: Store, at: End, c: Change, e: Env)
    requires OneChange(st, at, c) && at.model in st1.models && st1.linkIndex == st.linkIndex
    requires st1.models[at.model].name == st.models[at.model].name
    ensures FollowChange(st1, at.model, ChangedKeys(st, at.model, c), e) ==
            if at.model in st.linkIndex then Propagate(st1, [at], 0, e).st else st1
  {
    assert EndsOf(at.model, [at.attr]) == [at];
  }

  /** A change of one attribute that names its key once, on a model that is connected. Changing
      the ends of a link model links it anew, and is another matter. */
  predicate OneChange(st: Store, at: End, c: Change) {
    && IsLive(st, at.model)
    && c.attrs.Keys == {at.attr} && c.keys == [at.attr] && c.attrs[at.attr] != Entry(None, {})
    && (IsLinkModel(st.models[at.model]) ==> at.attr != "source" && at.attr != "target")
  }

  lemma OneKey(attrs: Attrs, key: string)
    requires attrs.Keys == {key}
    ensures attrs == map[key := attrs[key]]
  {
  }

  lemma NormNoVoid(v: Entry)
    ensures Stripped(Norm(v)) && (v != Entry(None, {}) ==> Norm(v) != Entry(None, {}))
  {
    NormIdempotent(v);
    if v.bufs == {} {
      assert Paths(v.bufs) == {};
      EmptiedByNone(v.value);
    }
  }

  /** From the first change in the store to the end of its links. */
  lemma ChangeSettles(st: Store, st1: Store, at: End, c: Change, e: Env) returns (changed: seq<End>)
    requires IndexOk(st.links, st.linkIndex) && 2 * |st.links| <= LINK_STEP_LIMIT && OneChange(st, at, c)
    requires Writes(st, st1, at, Norm(c.attrs[at.attr])) && at.model in st1.models
    requires st1.models[at.model].name == st.models[at.model].name
    ensures Settles(st, FollowChange(st1, at.model, ChangedKeys(st, at.model, c), e), at, Norm(c.attrs[at.attr]), changed)
  {
    var v := Norm(c.attrs[at.attr]);
    NormNoVoid(c.attrs[at.attr]);
    FollowOneKey(st, st1, at, c, e);
    if at.model in st.linkIndex {
      changed := FollowSettles(st, st1, at, v, e);
    } else {
      NothingToFollow(st, st1, at, v);
      changed := [at];
    }
  }

  lemma {:induction false} FlushAllKeepsName(st: Store, order: seq<Id>, now: Time, id: Id)
    requires id in st.models
    ensures id in FlushAll(st, order, now).models && FlushAll(st, order, now).models[id].name == st.models[id].name
    decreases |order|
  {
    if order != [] { FlushAllKeepsName(SendOutputs(st, order[0], now, false), order[1..], now, id); }
  }

  lemma LocalChangeKeepsName(st: Store, id: Id, update: Attrs, cell: Option<string>, e: Env)
    requires id in st.models
    ensures var st2 := LocalChange(st, id, update, cell, e);
            id in st2.models && st2.models[id].name == st.models[id].name
  {
    LocalChangeIs(st, id, update, cell, e);
    if !Holds(st.models[id], e.now) {
      FlushAllKeepsName(WidgetSteps.Take(st, id, update), e.order, e.now, id);
    }
  }

  /** A change of the frontend: when the call is over, its model has it, and so has everything the
      links lead to; nothing else changed. */
  lemma FrontendChangeSettles(st: Store, at: End, c: Change, cell: Option<string>, e: Env) returns (changed: seq<End>)
    requires Rep(st, {}) && 2 * |st.links| <= LINK_STEP_LIMIT && OneChange(st, at, c)
    ensures Settles(st, FrontendUpdate(st, at.model, c, cell, e), at, Norm(c.attrs[at.attr]), changed)
  {
    OneKey(c.attrs, at.attr);
    LocalChangeSets(st, at, c.attrs[at.attr], cell, e);
    LocalChangeKeepsName(st, at.model, c.attrs, cell, e);
    changed := ChangeSettles(st, LocalChange(st, at.model, c.attrs, cell, e), at, c, e);
  }

  lemma PacedFlushKeepsName(st: Store, id: Id, now: Time)
    requires id in st.models
    ensures var st2 := PacedFlush(st, id, now);
            id in st2.models && st2.models[id].name == st.models[id].name
  {
    PacedFlushIs(st, id, now);
    if CanGo(st, id) {
      if PacedNow(st.models[id], now) {
        SendOutputsKeepsName(st, id, now);
      } else if !st.models[id].flushScheduled {
        var delay := OUTPUT_FLUSH - Since(now, st.models[id].outSentAt.value);
        assert Arm(st, id, delay).models == st.models[id := st.models[id].(flushScheduled := true)];
      }
    }
  }

  lemma SendOutputsKeepsName(st: Store, id: Id, now: Time)
    requires id in st.models
    ensures var st2 := SendOutputs(st, id, now, true);
            id in st2.models && st2.models[id].name == st.models[id].name
  {
  }

  lemma CaptureChangedKeepsName(st: Store, id: Id, oldMsg: string, newMsg: string, now: Time)
    requires id in st.models
    ensures var st2 := CaptureChanged(st, id, oldMsg, newMsg, now);
            id in st2.models && st2.models[id].name == st.models[id].name
  {
    EndCaptureIs(st, oldMsg, id);
    var ended := EndCapture(st, oldMsg, id);
    assert ended.models == st.models;
    PacedFlushKeepsName(ended, id, now);
    var st1 := if oldMsg != "" then PacedFlush(ended, id, now) else st;
    assert AddCapture(st1, newMsg, id).models == st1.models;
  }

  lemma SameAfter(st: Store, st1: Store, st2: Store, at: End, v: Entry)
    requires Writes(st, st1, at, v) && SameAttrs(st1, st2)
    ensures Writes(st, st2, at, v)
  {
    SameValues(st1, st2);
  }

  /** So it is for a change of the kernel, one of the capture included. */
  lemma KernelChangeSettles(st: Store, at: End, c: Change, e: Env) returns (changed: seq<End>)
    requires Rep(st, {}) && 2 * |st.links| <= LINK_STEP_LIMIT && OneChange(st, at, c)
    ensures Settles(st, KernelUpdate(st, at.model, c, e), at, Norm(c.attrs[at.attr]), changed)
  {
    OneKey(c.attrs, at.attr);
    SetAttrsSets(st, at, c.attrs[at.attr]);
    var st1 := Emit(SetAttrs(st, at.model, c.attrs), Notify(at.model));
    assert SameAttrs(SetAttrs(st, at.model, c.attrs), st1);
    SameAfter(st, SetAttrs(st, at.model, c.attrs), st1, at, Norm(c.attrs[at.attr]));
    var oldMsg := StrOf(ValueOf(st.models[at.model].attrs, "msg_id"));
    var newMsg := StrOf(ValueOf(st1.models[at.model].attrs, "msg_id"));
    if st.models[at.model].name == OUTPUT_MODEL && oldMsg != newMsg {
      var st2 := CaptureChanged(st1, at.model, oldMsg, newMsg, e.now);
      CaptureChangedKeepsAttrs(st1, at.model, oldMsg, newMsg, e.now);
      CaptureChangedKeepsName(st1, at.model, oldMsg, newMsg, e.now);
      SameAfter(st, st1, st2, at, Norm(c.attrs[at.attr]));
      changed := ChangeSettles(st, st2, at, c, e);
    } else {
      changed := ChangeSettles(st, st1, at, c, e);
    }
  }
}
