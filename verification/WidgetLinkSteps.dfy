/** Links and captures keep what WidgetInvariants states. */
module WidgetLinkSteps {
  import opened Json
  import opened Attributes
  import opened WidgetStore
  import opened WidgetInvariants
  import opened WidgetSteps
  import opened WidgetFlow

  // ---- what only the capture lists, the link tables and the notifications show ----

  predicate SameCore(st: Store, st2: Store) {
    st2 == st.(capture := st2.capture, links := st2.links, linkIndex := st2.linkIndex, fx := st2.fx)
  }

  lemma SideRest(w: World, st: Store, st2: Store)
    requires Ids(w, st) && Mirror(w, st, Nothing) && LogOk(w.now, st, Nothing) && TimersOk(w, st)
    requires SameCore(st, st2) && Wire(w, st2) == Wire(w, st) && Armed(w, st2) == Armed(w, st)
    ensures Ids(w, st2) && Mirror(w, st2, Nothing) && LogOk(w.now, st2, Nothing) && TimersOk(w, st2)
  {
    forall x, key ensures InStep(w, st2, Nothing, x, key) { assert InStep(w, st, Nothing, x, key); }
    forall x ensures SumOk(st2, Nothing, x) { assert SumOk(st, Nothing, x); }
    forall id | id in w.kernel ensures KernelOk(w, st2, id) { assert KernelOk(w, st, id); }
    forall x: Id, msg: MsgId | CheckTimer(x, msg) in Armed(w, st2) ensures ForUpdate(st2, x, msg) {
      assert ForUpdate(st, x, msg);
    }
  }

  lemma SideRep(st: Store, st2: Store, slack: set<Id>)
    requires Rep(st, slack) && SameCore(st, st2) && CapturesOk(st2) && LinksOk(st2)
    ensures Rep(st2, slack)
  {
    assert forall id :: IsOutput(st, id) <==> IsOutput(st2, id);
  }

  lemma SideGood(w: World, st: Store, st2: Store)
    requires Good(w, st, Nothing, {}) && SameCore(st, st2) && CapturesOk(st2) && LinksOk(st2)
    requires Wire(w, st2) == Wire(w, st) && Armed(w, st2) == Armed(w, st)
    ensures Good(w, st2, Nothing, {})
  {
    SideRep(st, st2, {});
    SideRest(w, st, st2);
  }

  lemma NotifyKeeps(w: World, st: Store, id: Id, slack: set<Id>)
    requires Rep(st, slack)
    ensures Rep(Emit(st, Notify(id)), slack)
    ensures Wire(w, Emit(st, Notify(id))) == Wire(w, st) && Armed(w, Emit(st, Notify(id))) == Armed(w, st)
  {
    SendsSnoc(st.fx, Notify(id));
    assert TimersOf([Notify(id)]) == multiset{} by { assert [Notify(id)][..0] == []; }
    assert forall x :: IsOutput(st, x) <==> IsOutput(Emit(st, Notify(id)), x);
    SideRep(st, Emit(st, Notify(id)), slack);
  }

  lemma NotifySlackGood(w: World, st: Store, id: Id, slack: set<Id>)
    requires Good(w, st, Nothing, slack)
    ensures Good(w, Emit(st, Notify(id)), Nothing, slack)
  {
    NotifyKeeps(w, st, id, slack);
    SideRest(w, st, Emit(st, Notify(id)));
  }

  lemma NotifyGood(w: World, st: Store, id: Id)
    requires Good(w, st, Nothing, {})
    ensures Good(w, Emit(st, Notify(id)), Nothing, {})
  {
    NotifySlackGood(w, st, id, {});
  }

  // ---- the link index ----

  ghost predicate ListsOk(index: map<Id, seq<Id>>) {
    forall end <- index :: index[end] != [] && NoRepeats(index[end])
  }

  lemma IndexAddOk(index: map<Id, seq<Id>>, at: Id, link: Id)
    requires ListsOk(index)
    ensures ListsOk(IndexAdd(index, at, link))
    ensures forall end, l :: Indexed(IndexAdd(index, at, link), end, l) <==>
                             Indexed(index, end, l) || (end == at && l == link)
  {
  }

  lemma IndexRemoveOk(index: map<Id, seq<Id>>, at: Id, link: Id)
    requires ListsOk(index)
    ensures ListsOk(IndexRemove(index, at, link))
    ensures forall end, l :: Indexed(IndexRemove(index, at, link), end, l) <==>
                             Indexed(index, end, l) && !(end == at && l == link)
  {
    if at in index {
      var ids := Without(index[at], link);
      forall end, l
        ensures Indexed(IndexRemove(index, at, link), end, l) <==> Indexed(index, end, l) && !(end == at && l == link)
      {
        assert l in ids <==> l in index[at] && l != link;
      }
    }
  }

  /** Forgetting a link takes exactly it out of the index. */
  lemma UnindexOk(st: Store, id: Id)
    requires IndexOk(st.links, st.linkIndex)
    ensures IndexOk(UnindexLink(st, id).links, UnindexLink(st, id).linkIndex)
    ensures UnindexLink(st, id).links == st.links - {id}
    ensures SameCore(st, UnindexLink(st, id)) && UnindexLink(st, id).fx == st.fx
  {
    if id in st.links {
      var link := st.links[id];
      IndexRemoveOk(st.linkIndex, link.source.model, id);
      var first := IndexRemove(st.linkIndex, link.source.model, id);
      IndexRemoveOk(first, link.target.model, id);
      var st2 := UnindexLink(st, id);
      forall end, l ensures Indexed(st2.linkIndex, end, l) <==> l in st2.links && Touches(st2.links[l], end) {
        assert Indexed(st2.linkIndex, end, l) <==> Indexed(first, end, l) && !(end == link.target.model && l == id);
        assert Indexed(st.linkIndex, end, l) <==> l in st.links && Touches(st.links[l], end);
      }
    } else {
      assert st.links - {id} == st.links;
    }
  }

  lemma IndexLinkOk(st: Store, id: Id, link: Link)
    requires IndexOk(st.links, st.linkIndex)
    ensures IndexOk(IndexLink(st, id, link).links, IndexLink(st, id, link).linkIndex)
    ensures IndexLink(st, id, link).links.Keys == st.links.Keys + {id}
    ensures SameCore(st, IndexLink(st, id, link)) && IndexLink(st, id, link).fx == st.fx
  {
    UnindexOk(st, id);
    var st1 := UnindexLink(st, id);
    IndexAddOk(st1.linkIndex, link.source.model, id);
    var first := IndexAdd(st1.linkIndex, link.source.model, id);
    IndexAddOk(first, link.target.model, id);
    var st2 := IndexLink(st, id, link);
    forall end, l ensures Indexed(st2.linkIndex, end, l) <==> l in st2.links && Touches(st2.links[l], end) {
      assert Indexed(st2.linkIndex, end, l) <==> Indexed(first, end, l) || (end == link.target.model && l == id);
      assert Indexed(st1.linkIndex, end, l) <==> l in st1.links && Touches(st1.links[l], end);
    }
  }

  lemma SameCaptures(st: Store, st2: Store)
    requires CapturesOk(st) && SameCore(st, st2) && st2.capture == st.capture
    ensures CapturesOk(st2)
  {
    assert forall id :: IsOutput(st, id) <==> IsOutput(st2, id);
  }

  lemma UnindexGood(w: World, st: Store, id: Id)
    requires Good(w, st, Nothing, {})
    ensures Good(w, UnindexLink(st, id), Nothing, {})
  {
    UnindexOk(st, id);
    SameCaptures(st, UnindexLink(st, id));
    SideGood(w, st, UnindexLink(st, id));
  }

  lemma IndexLinkGood(w: World, st: Store, id: Id, link: Link)
    requires Good(w, st, Nothing, {}) && id in st.models
    ensures Good(w, IndexLink(st, id, link), Nothing, {})
  {
    IndexLinkOk(st, id, link);
    assert IndexLink(st, id, link).capture == st.capture;
    SameCaptures(st, IndexLink(st, id, link));
    SideGood(w, st, IndexLink(st, id, link));
  }

  // ---- copying along links ----

  lemma CopyAttrGood(w: World, st: Store, from: End, to: End, e: Env)
    requires Good(w, st, Nothing, {}) && e.now == w.now
    ensures Good(w, CopyAttr(st, from, to, e).st, Nothing, {})
  {
    if CopyAttr(st, from, to, e).changed {
      NotifyGood(w, st, to.model);
      var update := map[to.attr := AttrOf(st.models[from.model], from.attr)];
      assert to.attr in update;
      LocalChangeGood(w, Emit(st, Notify(to.model)), {}, to.model, update, None, e);
    }
  }

  /** One link of a changed attribute: the walk after it. */
  function VisitOne(st: Store, at: End, id: Id, queue: seq<End>, steps: nat, e: Env): Walk {
    var copy := if id in st.links then CopyFrom(st.links[id], at) else None;
    if copy.None? then Walk(st, queue, steps, false)
    else if steps + 1 > LINK_STEP_LIMIT then Walk(st, queue, steps + 1, true)
    else
      var c := CopyAttr(st, copy.value.from, copy.value.to, e);
      Walk(c.st, if c.changed then queue + [copy.value.to] else queue, steps + 1, false)
  }

  lemma VisitIs(st: Store, at: End, ids: seq<Id>, queue: seq<End>, steps: nat, e: Env)
    requires steps <= LINK_STEP_LIMIT && ids != []
    ensures var v := VisitOne(st, at, ids[0], queue, steps, e);
            && (!v.stopped ==> v.steps <= LINK_STEP_LIMIT)
            && Visit(st, at, ids, queue, steps, e) == if v.stopped then v else Visit(v.st, at, ids[1..], v.queue, v.steps, e)
  {
  }

  /** The copy one link of a changed attribute makes. */
  function CopyOf(st: Store, at: End, id: Id): Option<Copy> {
    if id in st.links then CopyFrom(st.links[id], at) else None
  }

  lemma VisitOneIs(st: Store, at: End, id: Id, queue: seq<End>, steps: nat, e: Env)
    ensures var copy, v := CopyOf(st, at, id), VisitOne(st, at, id, queue, steps, e);
            v.st == if copy.None? || steps + 1 > LINK_STEP_LIMIT then st
                    else CopyAttr(st, copy.value.from, copy.value.to, e).st
  {
  }

  lemma VisitOneGood(w: World, st: Store, at: End, id: Id, queue: seq<End>, steps: nat, e: Env)
    requires Good(w, st, Nothing, {}) && e.now == w.now
    ensures Good(w, VisitOne(st, at, id, queue, steps, e).st, Nothing, {})
  {
    VisitOneIs(st, at, id, queue, steps, e);
    var copy := CopyOf(st, at, id);
    if copy.Some? { CopyAttrGood(w, st, copy.value.from, copy.value.to, e); }
  }

  lemma {:induction false} VisitGood(w: World, st: Store, at: End, ids: seq<Id>, queue: seq<End>, steps: nat, e: Env)
    requires Good(w, st, Nothing, {}) && e.now == w.now && steps <= LINK_STEP_LIMIT
    ensures Good(w, Visit(st, at, ids, queue, steps, e).st, Nothing, {})
    decreases |ids|
  {
    if ids != [] {
      VisitIs(st, at, ids, queue, steps, e);
      VisitOneGood(w, st, at, ids[0], queue, steps, e);
      var v := VisitOne(st, at, ids[0], queue, steps, e);
      if !v.stopped { VisitGood(w, v.st, at, ids[1..], v.queue, v.steps, e); }
    }
  }

  lemma {:induction false} PropagateGood(w: World, st: Store, queue: seq<End>, steps: nat, e: Env)
    requires Good(w, st, Nothing, {}) && e.now == w.now && steps <= LINK_STEP_LIMIT
    ensures Good(w, Propagate(st, queue, steps, e).st, Nothing, {})
    decreases LINK_STEP_LIMIT - steps, |queue|
  {
    if queue != [] {
      VisitGood(w, st, queue[0], LinksAt(st, queue[0].model), queue[1..], steps, e);
      var v := Visit(st, queue[0], LinksAt(st, queue[0].model), queue[1..], steps, e);
      if !v.stopped { PropagateGood(w, v.st, v.queue, v.steps, e); }
    }
  }

  lemma ApplyLinkGood(w: World, st: Store, id: Id, e: Env)
    requires Good(w, st, Nothing, {}) && e.now == w.now
    ensures Good(w, ApplyLink(st, id, e), Nothing, {})
  {
    if id in st.links {
      var link := st.links[id];
      CopyAttrGood(w, st, link.source, link.target, e);
      var c := CopyAttr(st, link.source, link.target, e);
      PropagateGood(w, c.st, [link.target], 0, e);
    }
  }

  lemma {:induction false} ApplyLinksGood(w: World, st: Store, ids: seq<Id>, e: Env)
    requires Good(w, st, Nothing, {}) && e.now == w.now
    ensures Good(w, ApplyLinks(st, ids, e), Nothing, {})
    decreases |ids|
  {
    if ids != [] {
      ApplyLinkGood(w, st, ids[0], e);
      ApplyLinksGood(w, ApplyLink(st, ids[0], e), ids[1..], e);
    }
  }

  lemma RelinkGood(w: World, st: Store, id: Id, e: Env)
    requires Good(w, st, Nothing, {}) && e.now == w.now
    ensures Good(w, Relink(st, id, e), Nothing, {})
  {
    if id !in st.models || LinkOf(st.models[id]).None? {
      UnindexGood(w, st, id);
    } else {
      var link := LinkOf(st.models[id]).value;
      IndexLinkGood(w, st, id, link);
      ApplyLinkGood(w, IndexLink(st, id, link), id, e);
    }
  }

  lemma FollowChangeGood(w: World, st: Store, id: Id, keys: seq<string>, e: Env)
    requires Good(w, st, Nothing, {}) && e.now == w.now
    ensures Good(w, FollowChange(st, id, keys, e), Nothing, {})
  {
    if keys != [] {
      var relinks := id in st.models && IsLinkModel(st.models[id]) && ("source" in keys || "target" in keys);
      var st1 := if relinks then Relink(st, id, e) else st;
      if relinks { RelinkGood(w, st, id, e); }
      PropagateGood(w, st1, EndsOf(id, keys), 0, e);
    }
  }

  // ---- captures ----

  lemma CaptureListGood(w: World, st: Store, capture: map<string, seq<Id>>)
    requires Good(w, st, Nothing, {}) && CapturesOk(st.(capture := capture))
    ensures Good(w, st.(capture := capture), Nothing, {})
  {
    SideGood(w, st, st.(capture := capture));
  }

  lemma AddCaptureGood(w: World, st: Store, parent: string, id: Id)
    requires Good(w, st, Nothing, {}) && IsOutput(st, id)
    ensures Good(w, AddCapture(st, parent, id), Nothing, {})
  {
    var st2 := AddCapture(st, parent, id);
    assert NoRepeats<Id>([]);
    assert NoRepeats(st2.capture[parent]) by { assert id !in st2.capture[parent][..|st2.capture[parent]| - 1]; }
    assert forall x :: IsOutput(st, x) <==> IsOutput(st2, x);
    assert CapturesOk(st2);
    CaptureListGood(w, st, st2.capture);
  }

  lemma EndCaptureLists(st: Store, parent: string, id: Id, p: string)
    requires CapturesOk(st) && p in EndCapture(st, parent, id).capture
    ensures var ids := EndCapture(st, parent, id).capture[p];
            ids != [] && NoRepeats(ids) && forall x <- ids :: IsOutput(st, x)
  {
    assert p in st.capture && NoRepeats(st.capture[p]);
  }

  lemma EndCaptureIs(st: Store, parent: string, id: Id)
    ensures EndCapture(st, parent, id) == st.(capture := EndCapture(st, parent, id).capture)
  {
  }

  lemma ListedCaptures(st: Store, capture: map<string, seq<Id>>)
    requires forall p <- capture :: capture[p] != [] && NoRepeats(capture[p]) && forall x <- capture[p] :: IsOutput(st, x)
    ensures CapturesOk(st.(capture := capture))
  {
    assert forall x :: IsOutput(st, x) <==> IsOutput(st.(capture := capture), x);
  }

  lemma EndCaptureGood(w: World, st: Store, parent: string, id: Id)
    requires Good(w, st, Nothing, {})
    ensures Good(w, EndCapture(st, parent, id), Nothing, {})
  {
    var capture := EndCapture(st, parent, id).capture;
    forall p | p in capture ensures capture[p] != [] && NoRepeats(capture[p]) && forall x <- capture[p] :: IsOutput(st, x) {
      EndCaptureLists(st, parent, id, p);
    }
    ListedCaptures(st, capture);
    CaptureListGood(w, st, capture);
    EndCaptureIs(st, parent, id);
  }

  lemma PacedFlushKeepsOutput(st: Store, id: Id, now: Time, x: Id)
    ensures IsOutput(PacedFlush(st, id, now), x) <==> IsOutput(st, x)
  {
  }

  lemma CaptureChangedGood(w: World, st: Store, id: Id, oldMsg: string, newMsg: string)
    requires Good(w, st, Nothing, {}) && IsOutput(st, id)
    ensures Good(w, CaptureChanged(st, id, oldMsg, newMsg, w.now), Nothing, {})
  {
    var st1 := st;
    if oldMsg != "" {
      EndCaptureGood(w, st, oldMsg, id);
      PacedFlushGood(w, EndCapture(st, oldMsg, id), Nothing, {}, id);
      PacedFlushKeepsOutput(EndCapture(st, oldMsg, id), id, w.now, id);
      assert {} - {id} == {};
      st1 := PacedFlush(EndCapture(st, oldMsg, id), id, w.now);
    }
    if newMsg != "" {
      AddCaptureGood(w, st1, newMsg, id);
    }
  }
}
