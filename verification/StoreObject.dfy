/** The widget store as the object it is: every operation changes its fields in place, and does
    what the function of the same name in WidgetStore says (core/src/widgets.rs, Store). */
module StoreObject {
  import opened Json
  import opened Attributes
  import opened W = WidgetStore
  import OutputFold
  import WidgetInvariants
  import WidgetReach
  import WidgetRep

  /** One entry of a saved block as it is read. */
  datatype RawEntry = RawEntry(
    name: Option<string>,
    state: Option<map<string, Value>>,
    moduleName: string,
    version: string,
    buffers: set<Pair>
  )

  /** The block of a notebook's metadata as it is read. */
  datatype Block = Block(major: Option<nat>, entries: Option<map<Id, RawEntry>>)

  datatype LoadError = NoBlock | UnsupportedVersion | NoState

  datatype LoadResult = Loaded(count: nat) | Refused(error: LoadError)

  predicate Complete(e: RawEntry) {
    e.name.Some? && e.state.Some?
  }

  function SavedOf(e: RawEntry): WidgetReach.Saved
    requires Complete(e)
  {
    WidgetReach.Saved(e.name.value, e.moduleName, e.version, e.state.value, e.buffers)
  }

  /** The entries that load: those with a name and a state. */
  function CompleteEntries(entries: map<Id, RawEntry>): map<Id, Model> {
    map id | id in entries && Complete(entries[id]) :: WidgetReach.Loaded(SavedOf(entries[id]))
  }

  lemma FlushAllStep(st: W.Store, order: seq<Id>, i: nat, now: Time)
    requires i < |order|
    ensures FlushAll(st, order[i..], now) == FlushAll(W.SendOutputs(st, order[i], now, false), order[i + 1..], now)
  {
    assert order[i..][1..] == order[i + 1..];
  }

  lemma UpdateDisplayStep(st: W.Store, order: seq<Id>, i: nat, display: string, data: Value, metadata: Value)
    requires i < |order|
    ensures W.UpdateDisplay(st, order[i..], display, data, metadata) ==
            W.UpdateDisplay(UpdateDisplayOf(st, order[i], display, data, metadata), order[i + 1..], display, data, metadata)
  {
    assert order[i..][1..] == order[i + 1..];
  }

  lemma ApplyLinksStep(st: W.Store, ids: seq<Id>, i: nat, e: Env)
    requires i < |ids|
    ensures ApplyLinks(st, ids[i..], e) == ApplyLinks(W.ApplyLink(st, ids[i], e), ids[i + 1..], e)
  {
    assert ids[i..][1..] == ids[i + 1..];
  }

  lemma ChangedBySnoc(st: W.Store, id: Id, keys: seq<string>, i: nat, attrs: Attrs, parent: Option<MsgId>)
    requires id in st.models && i < |keys|
    ensures ChangedBy(st, id, keys[..i + 1], attrs, parent) ==
            ChangedBy(st, id, keys[..i], attrs, parent) + if EchoChanges(st, id, keys[i], attrs, parent) then [keys[i]] else []
  {
    assert keys[..i + 1][..i] == keys[..i];
  }

  /** The expectations left once the keys of an echo were met. */
  function Left(was: map<string, MsgId>, keys: seq<string>, parent: Option<MsgId>): map<string, MsgId> {
    map k | k in was && !(k in keys && parent == Some(was[k])) :: was[k]
  }

  lemma LeftSnoc(was: map<string, MsgId>, keys: seq<string>, i: nat, parent: Option<MsgId>)
    requires i < |keys| && keys[i] !in keys[..i]
    ensures var left := Left(was, keys[..i], parent);
            && (keys[i] in left <==> keys[i] in was) && (keys[i] in was ==> left[keys[i]] == was[keys[i]])
            && Left(was, keys[..i + 1], parent) ==
               if keys[i] in was && parent == Some(was[keys[i]]) then left - {keys[i]} else left
  {
    assert keys[..i + 1] == keys[..i] + [keys[i]];
  }

  lemma LeftIsAnswered(was: map<string, MsgId>, c: Change, parent: Option<MsgId>)
    requires Elems(c.keys) == c.attrs.Keys
    ensures Left(was, c.keys, parent) == Answered(was, c.attrs, parent)
  {
    assert forall k :: k in c.keys <==> k in Elems(c.keys);
  }

  /** The entries not in `todo` that load. */
  function LoadedBut(entries: map<Id, RawEntry>, todo: set<Id>): map<Id, Model> {
    map id | id in entries && id !in todo && Complete(entries[id]) :: WidgetReach.Loaded(SavedOf(entries[id]))
  }

  lemma OneMore(a: map<Id, Model>, b: map<Id, Model>, id: Id, m: Model)
    requires id !in b
    ensures a + b[id := m] == (a + b)[id := m] && |b[id := m]| == |b| + 1
  {
    assert b[id := m].Keys == b.Keys + {id};
    assert |b| == |b.Keys| && |b[id := m]| == |b[id := m].Keys|;
  }

  lemma LoadedMore(entries: map<Id, RawEntry>, todo: set<Id>, id: Id)
    requires id in entries && id in todo
    ensures LoadedBut(entries, todo - {id}) ==
            if Complete(entries[id]) then LoadedBut(entries, todo)[id := WidgetReach.Loaded(SavedOf(entries[id]))]
            else LoadedBut(entries, todo)
    ensures id !in LoadedBut(entries, todo)
  {
  }

  lemma LoadedEnds(entries: map<Id, RawEntry>)
    ensures LoadedBut(entries, entries.Keys) == map[]
    ensures LoadedBut(entries, {}) == CompleteEntries(entries)
  {
  }

  /** What a complete entry of a block loads as: its names, and under every key its value and its
      buffers with their slots empty. */
  lemma EntryLoads(entries: map<Id, RawEntry>, id: Id, k: string)
    requires id in entries && entries[id].name.Some? && entries[id].state.Some?
    ensures var raw, loaded := entries[id], CompleteEntries(entries);
            && id in loaded && !loaded[id].live
            && loaded[id].name == raw.name.value
            && loaded[id].moduleName == raw.moduleName && loaded[id].version == raw.version
            && AttrOf(loaded[id], k) == Norm(Entry(Lookup(raw.state.value, k), WidgetReach.BufsIn(raw.buffers, k)))
  {
    assert CompleteEntries(entries)[id] == WidgetReach.Loaded(SavedOf(entries[id]));
    WidgetReach.LoadedHolds(SavedOf(entries[id]), k);
  }

  /** An entry without a name or without a state does not load. */
  lemma EntrySkipped(entries: map<Id, RawEntry>, id: Id)
    requires id in entries ==> entries[id].name.None? || entries[id].state.None?
    ensures id !in CompleteEntries(entries)
  {
  }

  lemma EntriesOk(entries: map<Id, RawEntry>, id: Id)
    requires id in CompleteEntries(entries)
    ensures var m := CompleteEntries(entries)[id]; WidgetInvariants.ModelOk(m) && !m.live
  {
    var m := CompleteEntries(entries)[id];
    MergeKeepsStripped(map[], WidgetReach.AttrsIn(SavedOf(entries[id])));
    forall k | k in m.attrs ensures WidgetInvariants.SlotOk(m, k) {}
  }

  /** What load_saved answers. */
  function LoadAnswer(block: Option<Block>): LoadResult {
    if block.None? then Refused(NoBlock)
    else if block.value.major != Some(2) then Refused(UnsupportedVersion)
    else if block.value.entries.None? then Refused(NoState)
    else Loaded(|CompleteEntries(block.value.entries.value)|)
  }

  /** The models it loads. */
  function LoadedFrom(block: Option<Block>): map<Id, Model> {
    if LoadAnswer(block).Refused? then map[] else CompleteEntries(block.value.entries.value)
  }

  lemma LoadKeepsValid(st: W.Store, block: Option<Block>)
    requires WidgetInvariants.Rep(st, {})
    ensures WidgetInvariants.Rep(st.(models := st.models + LoadedFrom(block)), {}) <==>
            forall id <- LoadedFrom(block) :: WidgetRep.Unused(st, id)
  {
    var loaded := LoadedFrom(block);
    forall id | id in loaded ensures WidgetInvariants.ModelOk(loaded[id]) && !loaded[id].live {
      EntriesOk(block.value.entries.value, id);
    }
    WidgetRep.LoadKeepsRep(st, loaded);
  }

  class Store {
    var models: map<Id, Model>
    var capture: map<string, seq<Id>>
    var inflight: map<MsgId, Id>
    var ours: set<MsgId>
    var waiting: set<Id>
    var gen: nat
    var links: map<Id, Link>
    var linkIndex: map<Id, seq<Id>>
    var next: MsgId
    var fx: seq<Effect>
    ghost var log: seq<Item>

    ghost function St(): W.Store
      reads this
    {
      W.Store.Store(models, capture, inflight, ours, waiting, gen, links, linkIndex, next, fx, log)
    }

    /** The representation invariant, which every public operation keeps. */
    ghost predicate Valid()
      reads this
    {
      WidgetInvariants.Rep(St(), {})
    }

    constructor ()
      ensures Valid() && St() == Empty()
    {
      models, capture, inflight, ours, waiting, gen := map[], map[], map[], {}, {}, 0;
      links, linkIndex, next, fx, log := map[], map[], 0, [], [];
      new;
      WidgetRep.EmptyRep();
    }

    // ---- sending ----

    /** new_msg_id: an id never drawn before. */
    method NewMsgId() returns (msg: MsgId)
      modifies this`next
      ensures msg == old(next) && next == old(next) + 1
    {
      msg := next;
      next := next + 1;
    }

    /** outgoing */
    method Outgoing(comm: Id, msg: MsgId, body: Body, cell: Option<string>)
      modifies this`ours, this`fx
      ensures ours == old(ours) + {msg}
      ensures fx == old(fx) + [Send(W.Outgoing.Outgoing(comm, msg, body, cell))]
    {
      ours := ours + {msg};
      fx := fx + [Send(W.Outgoing.Outgoing(comm, msg, body, cell))];
    }

    /** A message that carries no attribute. */
    method PostMessage(comm: Id, body: Body, cell: Option<string>)
      modifies this`next, this`ours, this`fx
      ensures St() == Post(old(St()), comm, body, cell)
    {
      var msg := NewMsgId();
      Outgoing(comm, msg, body, cell);
    }

    /** send_outputs. Whether the flush keeps the cadence is for the log only. */
    method SendOutputs(id: Id, now: Time, ghost paced: bool)
      modifies this
      ensures St() == W.SendOutputs(old(St()), id, now, paced)
    {
      if id !in models {
        return;
      }
      var m := models[id];
      if id !in waiting || m.outInflight.Some? {
        return;
      }
      waiting := waiting - {id};
      var msg := NewMsgId();
      TrackFlush(id, msg, now);
      log := log + [Flushed(id, now, paced)];
      Outgoing(id, msg, FlushBody(m), None);
    }

    /** The flush `msg` is in flight, and its echo is expected. */
    method TrackFlush(id: Id, msg: MsgId, now: Time)
      requires id in models
      modifies this`models, this`inflight
      ensures var m := old(models)[id];
              models == old(models)[id := m.(expected := m.expected["outputs" := msg], outInflight := Some(msg), outSentAt := Some(now))]
      ensures inflight == old(inflight)[msg := id]
    {
      var m := models[id];
      m := m.(expected := m.expected["outputs" := msg]);
      models := models[id := m.(outInflight := Some(msg), outSentAt := Some(now))];
      inflight := inflight[msg := id];
    }

    /** flush_before_request */
    method FlushBeforeRequest(e: Env)
      requires Valid()
      modifies this
      ensures Valid() && St() == FlushAll(old(St()), e.order, e.now)
    {
      WidgetRep.FlushAllRep(St(), {}, e.order, e.now);
      FlushWaiting(e);
    }

    /** The same within a call. */
    method FlushWaiting(e: Env)
      modifies this
      ensures St() == FlushAll(old(St()), e.order, e.now)
    {
      assert e.order[0..] == e.order;
      for i := 0 to |e.order|
        invariant FlushAll(St(), e.order[i..], e.now) == FlushAll(old(St()), e.order, e.now)
      {
        FlushAllStep(St(), e.order, i, e.now);
        SendOutputs(e.order[i], e.now, false);
      }
    }

    /** send_update */
    method SendUpdate(id: Id, update: Attrs, cell: Option<string>, e: Env)
      requires id in models
      modifies this
      ensures St() == W.SendUpdate(old(St()), id, update, cell, e)
    {
      FlushAllKeepsModels(St(), e.order, e.now);
      FlushWaiting(e);
      PutUpdate(id, update, cell, e.now);
    }

    method PutUpdate(id: Id, update: Attrs, cell: Option<string>, now: Time)
      requires id in models
      modifies this
      ensures St() == W.PutUpdate(old(St()), id, update, cell, now)
    {
      var msg := NewMsgId();
      Track(id, update, msg, now);
      SendTracked(id, update, msg, cell);
    }

    method SendTracked(id: Id, update: Attrs, msg: MsgId, cell: Option<string>)
      modifies this`ours, this`fx, this`log
      ensures ours == old(ours) + {msg} && log == old(log) + [Updated(id, update)]
      ensures fx == old(fx) + [Send(W.Outgoing.Outgoing(id, msg, Update(update), cell))]
                    + [CheckInflightAfter(id, msg, INFLIGHT_TIMEOUT)]
    {
      log := log + [Updated(id, update)];
      Outgoing(id, msg, Update(update), cell);
      fx := fx + [CheckInflightAfter(id, msg, INFLIGHT_TIMEOUT)];
    }

    /** The update `msg` takes the place of the one in flight, and its echo is expected. */
    method Track(id: Id, update: Attrs, msg: MsgId, now: Time)
      requires id in models
      modifies this`models, this`inflight
      ensures var m := old(models)[id];
              models == old(models)[id := m.(expected := m.expected + (map k <- update :: msg), inflight := Some(Inflight(msg, now)))]
      ensures var was := old(models)[id].inflight;
              inflight == (if was.Some? then old(inflight) - {was.value.id} else old(inflight))[msg := id]
    {
      var m := models[id];
      var expected := Expecting(m.expected, update.Keys, msg);
      assert (map k <- update.Keys :: msg) == map k <- update :: msg;
      models := models[id := m.(expected := expected, inflight := Some(Inflight(msg, now)))];
      if m.inflight.Some? {
        inflight := inflight - {m.inflight.value.id};
      }
      inflight := inflight[msg := id];
    }

    /** The echoes expected once `msg` carries `keys` too. */
    static method Expecting(was: map<string, MsgId>, keys: set<string>, msg: MsgId) returns (expected: map<string, MsgId>)
      ensures expected == was + map k <- keys :: msg
    {
      expected := was;
      var touched := keys;
      while touched != {}
        invariant touched <= keys
        invariant expected == was + map k | k in keys && k !in touched :: msg
        decreases touched
      {
        var key :| key in touched;
        touched := touched - {key};
        expected := expected[key := msg];
      }
    }

    method HoldChange(id: Id, update: Attrs)
      requires id in models
      modifies this`models, this`log
      ensures St() == Hold(old(St()), id, update)
    {
      models := models[id := models[id].(pending := Merge(models[id].pending, update))];
      log := log + [Queued(id, update)];
    }

    method TakeHeldChanges(id: Id)
      requires id in models
      modifies this`models, this`inflight
      ensures St() == TakeHeld(old(St()), id)
    {
      var m := models[id];
      models := models[id := m.(inflight := None, pending := map[], pendingCell := None)];
      if m.inflight.Some? {
        inflight := inflight - {m.inflight.value.id};
      }
    }

    /** queue_for_kernel */
    method QueueForKernel(id: Id, update: Attrs, cell: Option<string>, e: Env)
      modifies this
      ensures St() == Queue(old(St()), id, update, cell, e)
    {
      if id !in models {
        return;
      }
      var inflight := models[id].inflight;
      var held := inflight.Some? && Since(e.now, inflight.value.sent) < INFLIGHT_TIMEOUT;
      HoldChange(id, update);
      if held {
        if cell.Some? {
          models := models[id := models[id].(pendingCell := cell)];
        }
        return;
      }
      var m := models[id];
      TakeHeldChanges(id);
      SendUpdate(id, m.pending, if cell.Some? then cell else m.pendingCell, e);
    }

    /** inflight_timeout, of the model and the message its timer was armed for */
    method InflightTimeout(id: Id, msg: MsgId, e: Env)
      requires Valid() && WidgetInvariants.ForUpdate(St(), id, msg)
      modifies this
      ensures Valid() && St() == W.Release(old(St()), id, msg, e)
    {
      WidgetRep.ReleaseRep(St(), id, msg, e);
      Release(id, msg, e);
    }

    /** release */
    method Release(id: Id, msg: MsgId, e: Env)
      modifies this
      ensures St() == W.Release(old(St()), id, msg, e)
    {
      inflight := inflight - {msg};
      if id !in models {
        return;
      }
      var m := models[id];
      if m.inflight.None? || m.inflight.value.id != msg {
        return;
      }
      if m.pending == map[] {
        models := models[id := m.(inflight := None)];
        return;
      }
      TakeHeldChanges(id);
      SendUpdate(id, m.pending, m.pendingCell, e);
    }

    // ---- pacing ----

    /** paced_flush */
    method PacedFlush(id: Id, now: Time)
      modifies this
      ensures St() == W.PacedFlush(old(St()), id, now)
    {
      if id !in models {
        return;
      }
      var m := models[id];
      if id !in waiting || m.outInflight.Some? {
        return;
      }
      if m.outSentAt.Some? {
        var elapsed := Since(now, m.outSentAt.value);
        if elapsed < OUTPUT_FLUSH {
          if m.flushScheduled {
            return;
          }
          models := models[id := m.(flushScheduled := true)];
          fx := fx + [FlushOutputsAfter(id, OUTPUT_FLUSH - elapsed)];
          return;
        }
      }
      SendOutputs(id, now, true);
    }

    /** flush_outputs */
    method FlushOutputs(id: Id, now: Time)
      requires Valid()
      modifies this
      ensures Valid()
      ensures St() == W.FlushOutputs(old(St()), id, now)
    {
      WidgetRep.FlushOutputsRep(St(), id, now);
      if id in models {
        models := models[id := models[id].(flushScheduled := false)];
      }
      PacedFlush(id, now);
    }

    /** on_idle */
    method OnIdle(parent: MsgId, e: Env)
      requires Valid()
      modifies this
      ensures Valid()
      ensures St() == W.OnIdle(old(St()), parent, e)
    {
      WidgetRep.OnIdleRep(St(), parent, e);
      ours := ours - {parent};
      if parent !in inflight {
        return;
      }
      var id := inflight[parent];
      if id in models && models[id].outInflight == Some(parent) {
        EndFlush(id, parent, e.now);
        return;
      }
      Release(id, parent, e);
    }

    /** The flush in flight ended: what was captured meanwhile is paced. */
    method EndFlush(id: Id, msg: MsgId, now: Time)
      requires id in models
      modifies this
      ensures var m := old(models)[id].(outInflight := None);
              St() == W.PacedFlush(old(St()).(models := old(models)[id := m], inflight := old(inflight) - {msg}), id, now)
    {
      models := models[id := models[id].(outInflight := None)];
      inflight := inflight - {msg};
      PacedFlush(id, now);
    }

    // ---- links ----

    method UnindexEnd(end: Id, link: Id)
      modifies this`linkIndex
      ensures linkIndex == IndexRemove(old(linkIndex), end, link)
    {
      if end in linkIndex {
        linkIndex := linkIndex[end := Without(linkIndex[end], link)];
        if linkIndex[end] == [] {
          linkIndex := linkIndex - {end};
          assert linkIndex == old(linkIndex) - {end};
        }
      }
    }

    /** unindex_link */
    method UnindexLink(id: Id)
      modifies this`links, this`linkIndex
      ensures St() == W.UnindexLink(old(St()), id)
    {
      if id !in links {
        return;
      }
      var link := links[id];
      links := links - {id};
      UnindexEnd(link.source.model, id);
      UnindexEnd(link.target.model, id);
    }

    method IndexEnd(end: Id, link: Id)
      modifies this`linkIndex
      ensures linkIndex == IndexAdd(old(linkIndex), end, link)
    {
      if end !in linkIndex {
        linkIndex := linkIndex[end := []];
      }
      if link !in linkIndex[end] {
        linkIndex := linkIndex[end := linkIndex[end] + [link]];
      }
    }

    /** index_link */
    method IndexLink(id: Id, link: Link)
      modifies this`links, this`linkIndex
      ensures St() == W.IndexLink(old(St()), id, link)
    {
      UnindexLink(id);
      IndexEnd(link.source.model, id);
      IndexEnd(link.target.model, id);
      links := links[id := link];
    }

    /** copy_attr */
    method CopyAttr(from: End, to: End, e: Env) returns (changed: bool)
      modifies this
      ensures Copied(St(), changed) == W.CopyAttr(old(St()), from, to, e)
    {
      if to.model !in models || !models[to.model].live || from.model !in models {
        return false;
      }
      var entry := AttrOf(models[from.model], from.attr);
      if entry == Entry(None, {}) {
        return false;
      }
      if AttrOf(models[to.model], to.attr) == entry {
        return false;
      }
      var update := map[to.attr := entry];
      fx := fx + [Notify(to.model)];
      models := models[to.model := models[to.model].(attrs := Merge(models[to.model].attrs, update))];
      QueueForKernel(to.model, update, None, e);
      changed := true;
    }

    /** propagate */
    method Propagate(changed: seq<End>, e: Env)
      modifies this
      ensures St() == W.Propagate(old(St()), changed, 0, e).st
    {
      ghost var want := W.Propagate(St(), changed, 0, e).st;
      var queue, steps := changed, 0;
      var stopped := false;
      while queue != [] && !stopped
        invariant stopped ==> St() == want
        invariant !stopped ==> steps <= LINK_STEP_LIMIT && W.Propagate(St(), queue, steps, e).st == want
        decreases !stopped, LINK_STEP_LIMIT - steps, |queue|
      {
        var at := queue[0];
        queue, steps, stopped := FollowLinks(at, queue[1..], steps, e);
      }
    }

    /** One round of propagate. */
    method FollowLinks(at: End, waitingEnds: seq<End>, taken: nat, e: Env) returns (queue: seq<End>, steps: nat, stopped: bool)
      requires taken <= LINK_STEP_LIMIT
      modifies this
      ensures Walk(St(), queue, steps, stopped) == Visit(old(St()), at, LinksAt(old(St()), at.model), waitingEnds, taken, e)
    {
      queue, steps, stopped := waitingEnds, taken, false;
      var ids := if at.model in linkIndex then linkIndex[at.model] else [];
      ghost var want := Visit(St(), at, ids, queue, steps, e);
      assert ids[0..] == ids;
      for i := 0 to |ids|
        invariant steps <= LINK_STEP_LIMIT && !stopped
        invariant Visit(St(), at, ids[i..], queue, steps, e) == want
      {
        assert ids[i..][1..] == ids[i + 1..];
        var copy := if ids[i] in links then CopyFrom(links[ids[i]], at) else None;
        if copy.Some? {
          steps := steps + 1;
          if steps > LINK_STEP_LIMIT {
            stopped := true;
            return;
          }
          var copied := CopyAttr(copy.value.from, copy.value.to, e);
          if copied {
            queue := queue + [copy.value.to];
          }
        }
      }
    }

    /** apply_link */
    method ApplyLink(id: Id, e: Env)
      modifies this
      ensures St() == W.ApplyLink(old(St()), id, e)
    {
      if id !in links {
        return;
      }
      var link := links[id];
      if link.source.model !in models || !models[link.source.model].live
         || link.target.model !in models || !models[link.target.model].live {
        return;
      }
      var changed := CopyAttr(link.source, link.target, e);
      if changed {
        Propagate([link.target], e);
      }
    }

    /** relink */
    method Relink(id: Id, e: Env)
      modifies this
      ensures St() == W.Relink(old(St()), id, e)
    {
      var link := if id in models then LinkOf(models[id]) else None;
      if link.Some? {
        IndexLink(id, link.value);
        ApplyLink(id, e);
      } else {
        UnindexLink(id);
      }
    }

    /** changed_keys */
    function Touched(id: Id, c: Change): (keys: seq<string>)
      reads this
      ensures keys == ChangedKeys(St(), id, c)
    {
      if (id in models && IsLinkModel(models[id])) || id in linkIndex then c.keys else []
    }

    /** follow_change */
    method FollowChange(id: Id, keys: seq<string>, e: Env)
      modifies this
      ensures St() == W.FollowChange(old(St()), id, keys, e)
    {
      if keys == [] {
        return;
      }
      if id in models && IsLinkModel(models[id]) && ("source" in keys || "target" in keys) {
        Relink(id, e);
      }
      if id in linkIndex {
        Propagate(EndsOf(id, keys), e);
      }
    }

    // ---- captures ----

    /** add_capture */
    method AddCapture(parent: string, id: Id)
      modifies this`capture
      ensures St() == W.AddCapture(old(St()), parent, id)
    {
      if parent !in capture {
        capture := capture[parent := []];
      }
      capture := capture[parent := Without(capture[parent], id)];
      capture := capture[parent := capture[parent] + [id]];
    }

    /** capture_changed */
    method CaptureChanged(id: Id, was: string, msg: string, now: Time)
      modifies this
      ensures St() == W.CaptureChanged(old(St()), id, was, msg, now)
    {
      if was != "" {
        if was in capture {
          capture := capture[was := Without(capture[was], id)];
          if capture[was] == [] {
            capture := capture - {was};
            assert capture == old(capture) - {was};
          }
        }
        assert St() == EndCapture(old(St()), was, id);
        PacedFlush(id, now);
      }
      if msg != "" {
        AddCapture(msg, id);
      }
    }

    /** The outputs of a model changed here: they wait to be sent. */
    method Captured(id: Id, outputs: seq<Value>, clearPending: bool)
      requires id in models
      modifies this
      ensures St() == Captures(old(St()), id, outputs, clearPending)
    {
      var m := SetOutputs(models[id], outputs).(clearPending := clearPending);
      waiting := waiting + {id};
      fx := fx + [Notify(id)];
      if !m.flushScheduled && m.outInflight.None? {
        m := m.(flushScheduled := true);
        fx := fx + [FlushOutputsAfter(id, OUTPUT_FLUSH)];
      }
      models := models[id := m];
    }

    /** route_output: whether an Output widget took the event. */
    method RouteOutput(parent: string, ev: OutputFold.Event) returns (taken: bool)
      requires Valid()
      modifies this
      ensures Valid()
      ensures St() == W.RouteOutput(old(St()), parent, ev)
      ensures taken <==> CapturingModel(old(St()), parent).Some?
    {
      WidgetRep.RouteOutputRep(St(), parent, ev);
      if parent !in capture || capture[parent] == [] {
        return false;
      }
      var id := capture[parent][|capture[parent]| - 1];
      if id !in models || !models[id].live || models[id].name != OUTPUT_MODEL {
        return false;
      }
      var m := models[id];
      var outputs, clearPending, _ := OutputFold.ApplyCaptured(OutputsOf(m), m.clearPending, ev);
      Captured(id, outputs, clearPending);
      taken := true;
    }

    /** update_display */
    method UpdateDisplay(order: seq<Id>, display: string, data: Value, metadata: Value)
      requires Valid()
      modifies this
      ensures Valid()
      ensures St() == W.UpdateDisplay(old(St()), order, display, data, metadata)
    {
      WidgetRep.UpdateDisplayRep(St(), order, display, data, metadata);
      assert order[0..] == order;
      for i := 0 to |order|
        invariant W.UpdateDisplay(St(), order[i..], display, data, metadata) ==
                  W.UpdateDisplay(old(St()), order, display, data, metadata)
      {
        UpdateDisplayStep(St(), order, i, display, data, metadata);
        UpdateDisplayIn(order[i], display, data, metadata);
      }
    }

    method UpdateDisplayIn(id: Id, display: string, data: Value, metadata: Value)
      modifies this
      ensures St() == UpdateDisplayOf(old(St()), id, display, data, metadata)
    {
      if id !in models || !models[id].live || models[id].name != OUTPUT_MODEL {
        return;
      }
      var was := OutputsOf(models[id]);
      var outs := was;
      var hit := false;
      for i := 0 to |was|
        invariant |outs| == |was|
        invariant hit <==> exists j | 0 <= j < i :: Shows(was[j], display)
        invariant forall j | i <= j < |was| :: outs[j] == was[j]
        invariant forall j | 0 <= j < i :: outs[j] == Redisplayed(was, display, data, metadata)[j]
      {
        if Shows(outs[i], display) {
          outs := outs[i := Obj(outs[i].fields["data" := data]["metadata" := metadata])];
          hit := true;
        }
      }
      assert outs == Redisplayed(was, display, data, metadata);
      if hit {
        Captured(id, outs, models[id].clearPending);
      }
    }

    // ---- the kernel's messages ----

    /** drop_model */
    method DropModel(id: Id)
      modifies this
      ensures St() == W.DropModel(old(St()), id)
    {
      if id !in models {
        return;
      }
      models := models - {id};
      waiting := waiting - {id};
      capture := DropFromCaptures(capture, id);
      inflight := map m | m in inflight && inflight[m] != id :: inflight[m];
      UnindexLink(id);
    }

    /** comm_open of a widget */
    method CommOpen(id: Id, c: Change, e: Env)
      requires Valid()
      modifies this
      ensures Valid()
      ensures St() == W.CommOpen(old(St()), id, c, e)
    {
      WidgetRep.CommOpenRep(St(), id, c, e);
      var m := Blank(StrOf(ValueOf(c.attrs, "_model_name")), StrOf(ValueOf(c.attrs, "_model_module")),
                     StrOf(ValueOf(c.attrs, "_model_module_version")), true);
      m := m.(attrs := Merge(m.attrs, c.attrs));
      Insert(id, m);
      var link := LinkOf(m);
      if link.Some? {
        IndexLink(id, link.value);
        ApplyLink(id, e);
      } else {
        var ids := if id in linkIndex then linkIndex[id] else [];
        ghost var before := St();
        assert ids[0..] == ids;
        for i := 0 to |ids|
          invariant ApplyLinks(St(), ids[i..], e) == ApplyLinks(before, ids, e)
        {
          ApplyLinksStep(St(), ids, i, e);
          ApplyLink(ids[i], e);
        }
      }
    }

    method Insert(id: Id, m: Model)
      modifies this
      ensures St() == W.Insert(old(St()), id, m)
    {
      DropModel(id);
      if m.name == OUTPUT_MODEL {
        var msg := StrOf(ValueOf(m.attrs, "msg_id"));
        if msg != "" {
          AddCapture(msg, id);
        }
      }
      models := models[id := m];
      fx := fx + [Notify(id)];
    }

    /** comm_open of any other target */
    method RefuseOpen(comm: Id)
      requires Valid()
      modifies this
      ensures Valid()
      ensures St() == W.RefuseOpen(old(St()), comm)
    {
      WidgetRep.RefuseOpenRep(St(), comm);
      PostMessage(comm, Close, None);
    }

    /** comm_close */
    method CommClose(id: Id)
      requires Valid()
      modifies this
      ensures Valid()
      ensures St() == W.CommClose(old(St()), id)
    {
      WidgetRep.CommCloseRep(St(), id);
      if id in models {
        DropModel(id);
        fx := fx + [Notify(id)];
      }
    }

    /** kernel_update */
    method KernelUpdate(id: Id, c: Change, e: Env)
      requires Valid()
      modifies this
      ensures Valid()
      ensures St() == W.KernelUpdate(old(St()), id, c, e)
    {
      WidgetRep.KernelUpdateRep(St(), id, c, e);
      if id !in models || !models[id].live {
        return;
      }
      var changed := Touched(id, c);
      var isOutput := models[id].name == OUTPUT_MODEL;
      var was := StrOf(ValueOf(models[id].attrs, "msg_id"));
      models := models[id := models[id].(attrs := Merge(models[id].attrs, c.attrs))];
      var msg := StrOf(ValueOf(models[id].attrs, "msg_id"));
      fx := fx + [Notify(id)];
      assert St() == Emit(SetAttrs(old(St()), id, c.attrs), Notify(id));
      if isOutput && was != msg {
        CaptureChanged(id, was, msg, e.now);
      }
      FollowChange(id, changed, e);
    }

    /** kernel_echo. The keys are the touched ones, each once. */
    method KernelEcho(id: Id, c: Change, parent: Option<MsgId>, e: Env)
      requires NoRepeats(c.keys) && Elems(c.keys) == c.attrs.Keys
      requires Valid()
      modifies this
      ensures Valid()
      ensures St() == W.KernelEcho(old(St()), id, c, parent, e)
    {
      WidgetRep.KernelEchoRep(St(), id, c, parent, e);
      if id !in models || !models[id].live {
        return;
      }
      var applied := AnswerEcho(id, c, parent);
      FollowChange(id, applied, e);
    }

    method AnswerEcho(id: Id, c: Change, parent: Option<MsgId>) returns (applied: seq<string>)
      requires id in models
      requires NoRepeats(c.keys) && Elems(c.keys) == c.attrs.Keys
      modifies this
      ensures St() == TakeEcho(old(St()), id, c, parent)
      ensures applied == EchoApplied(old(St()), id, c, parent)
    {
      var expected;
      applied, expected := Applies(id, c, parent);
      var m := models[id];
      if applied == [] {
        models := models[id := m.(expected := expected)];
        return;
      }
      var kept := map k | k in c.attrs && k in applied :: c.attrs[k];
      assert kept == EchoKept(St(), id, c, parent);
      models := models[id := m.(expected := expected, attrs := Merge(m.attrs, kept))];
      fx := fx + [Notify(id)];
    }

    /** The keys of an echo that apply, and the expectations that are left. */
    method Applies(id: Id, c: Change, parent: Option<MsgId>) returns (applied: seq<string>, expected: map<string, MsgId>)
      requires id in models
      requires NoRepeats(c.keys) && Elems(c.keys) == c.attrs.Keys
      ensures applied == EchoApplied(St(), id, c, parent)
      ensures expected == Answered(models[id].expected, c.attrs, parent)
    {
      var was := models[id].expected;
      applied, expected := [], was;
      assert c.keys[..0] == [];
      for i := 0 to |c.keys|
        invariant applied == ChangedBy(St(), id, c.keys[..i], c.attrs, parent)
        invariant expected == Left(was, c.keys[..i], parent)
      {
        var key := c.keys[i];
        assert key in Elems(c.keys) && key !in c.keys[..i];
        ChangedBySnoc(St(), id, c.keys, i, c.attrs, parent);
        LeftSnoc(was, c.keys, i, parent);
        var apply := TakesKey(id, key, c.attrs, parent);
        if key in expected && parent == Some(expected[key]) {
          expected := expected - {key};
        }
        if apply && AttrOf(models[id], key) != c.attrs[key] {
          applied := applied + [key];
        }
      }
      assert c.keys[..|c.keys|] == c.keys;
      LeftIsAnswered(was, c, parent);
    }

    /** Whether the echo of one attribute applies. */
    method TakesKey(id: Id, key: string, attrs: Attrs, parent: Option<MsgId>) returns (apply: bool)
      requires id in models
      ensures apply == EchoTakes(St(), id, key, attrs, parent)
    {
      var m := models[id];
      if key !in m.expected {
        return true;
      }
      if parent != Some(m.expected[key]) {
        return false;
      }
      apply := key !in m.pending;
      if m.name == OUTPUT_MODEL && key == "outputs" {
        var v := ValueOf(attrs, key);
        apply := apply && id !in waiting && v.Some? && !OutputsMatch(v.value, ValueOf(m.attrs, key));
      }
    }

    /** comm_msg with a custom message */
    method KernelCustom(id: Id)
      requires Valid()
      modifies this
      ensures Valid()
      ensures St() == W.KernelCustom(old(St()), id)
    {
      WidgetRep.KernelCustomRep(St(), id);
      if id in models && models[id].live {
        fx := fx + [Notify(id)];
      }
    }

    // ---- the frontend ----

    /** frontend_update: refused for a model that is not connected. */
    method FrontendUpdate(id: Id, c: Change, cell: Option<string>, e: Env) returns (ok: bool)
      requires Valid()
      modifies this
      ensures Valid()
      ensures St() == W.FrontendUpdate(old(St()), id, c, cell, e)
      ensures ok <==> IsLive(old(St()), id)
    {
      WidgetRep.FrontendUpdateRep(St(), id, c, cell, e);
      if id !in models || !models[id].live {
        return false;
      }
      ok := true;
      if c.attrs == map[] {
        return;
      }
      models := models[id := models[id].(attrs := Merge(models[id].attrs, c.attrs))];
      var changed := Touched(id, c);
      assert changed == ChangedKeys(old(St()), id, c);
      QueueForKernel(id, c.attrs, cell, e);
      FollowChange(id, changed, e);
    }

    /** frontend_custom */
    method FrontendCustom(id: Id, content: Value, cell: Option<string>, e: Env) returns (ok: bool)
      requires Valid()
      modifies this
      ensures Valid()
      ensures St() == W.FrontendCustom(old(St()), id, content, cell, e)
      ensures ok <==> IsLive(old(St()), id)
    {
      WidgetRep.FrontendCustomRep(St(), id, content, cell, e);
      if id !in models || !models[id].live {
        return false;
      }
      ok := true;
      FlushWaiting(e);
      PostMessage(id, Custom(content), cell);
    }

    // ---- restart and load ----

    /** reset */
    method Reset(roots: seq<Id>)
      requires Valid()
      modifies this
      ensures Valid()
      ensures St() == W.Reset(old(St()), WidgetReach.KeptSet(old(models), Elems(roots)))
    {
      var keep := WidgetReach.Keep(models, roots);
      WidgetRep.ResetsRep(St(), keep);
      ResetTo(keep);
    }

    method ResetTo(keep: set<Id>)
      modifies this
      ensures St() == W.Reset(old(St()), keep)
    {
      gen := gen + 1;
      Prune(keep);
      Disconnect(keep);
    }

    method Prune(keep: set<Id>)
      modifies this
      ensures models == map id | id in old(models) && id in keep :: old(models)[id]
      ensures gen == old(gen) && next == old(next) && fx == old(fx) && log == old(log)
    {
      var pruned := models.Keys - keep;
      while pruned != {}
        invariant pruned <= old(models).Keys - keep
        invariant models == map id | id in old(models) && (id in keep || id in pruned) :: old(models)[id]
        invariant gen == old(gen) && next == old(next) && fx == old(fx) && log == old(log)
        decreases pruned
      {
        var id :| id in pruned;
        pruned := pruned - {id};
        ghost var was := models;
        DropModel(id);
        assert models == was - {id};
      }
    }

    method Disconnect(ghost keep: set<Id>)
      modifies this
      ensures models == map id | id in old(models) :: Disconnected(old(models)[id])
      ensures capture == map[] && inflight == map[] && ours == {} && waiting == {} && links == map[] && linkIndex == map[]
      ensures gen == old(gen) && next == old(next) && fx == old(fx) && log == old(log)
    {
      models := map id | id in models :: Disconnected(models[id]);
      capture, inflight, ours, waiting, links, linkIndex := map[], map[], {}, {}, map[], map[];
    }

    /** load_saved, for the block of a notebook if it has one. The invariant is kept exactly when
        no dead model takes the place of one in use. */
    method LoadSaved(block: Option<Block>) returns (r: LoadResult)
      requires Valid()
      modifies this`models
      ensures r == LoadAnswer(block)
      ensures models == old(models) + LoadedFrom(block)
      ensures Valid() <==> forall id <- LoadedFrom(block) :: WidgetRep.Unused(old(St()), id)
    {
      LoadKeepsValid(St(), block);
      r := LoadBlock(block);
    }

    method LoadBlock(block: Option<Block>) returns (r: LoadResult)
      modifies this`models
      ensures r == LoadAnswer(block)
      ensures models == old(models) + LoadedFrom(block)
    {
      if block.None? {
        return Refused(NoBlock);
      }
      if block.value.major != Some(2) {
        return Refused(UnsupportedVersion);
      }
      if block.value.entries.None? {
        return Refused(NoState);
      }
      var loaded := LoadEntries(block.value.entries.value);
      r := Loaded(loaded);
    }

    method LoadEntries(entries: map<Id, RawEntry>) returns (loaded: nat)
      modifies this`models
      ensures models == old(models) + CompleteEntries(entries)
      ensures loaded == |CompleteEntries(entries)|
    {
      loaded := 0;
      var todo := entries.Keys;
      LoadedEnds(entries);
      ghost var got := LoadedBut(entries, todo);
      while todo != {}
        invariant todo <= entries.Keys
        invariant got == LoadedBut(entries, todo)
        invariant models == old(models) + got && loaded == |got|
        decreases todo
      {
        var id :| id in todo;
        LoadedMore(entries, todo, id);
        todo := todo - {id};
        var took;
        took, got := LoadEntry(id, entries[id], old(models), got);
        if took {
          loaded := loaded + 1;
        }
      }
    }

    method LoadEntry(id: Id, entry: RawEntry, ghost was: map<Id, Model>, ghost got: map<Id, Model>)
      returns (took: bool, ghost more: map<Id, Model>)
      requires models == was + got && id !in got
      modifies this`models
      ensures took == Complete(entry)
      ensures more == if took then got[id := WidgetReach.Loaded(SavedOf(entry))] else got
      ensures models == was + more && |more| == |got| + if took then 1 else 0
    {
      took, more := Complete(entry), got;
      if took {
        var m := Blank(entry.name.value, entry.moduleName, entry.version, false);
        m := m.(attrs := Merge(m.attrs, WidgetReach.AttrsIn(SavedOf(entry))));
        models := models[id := m];
        more := got[id := m];
        OneMore(was, got, id, m);
      }
    }
  }
}
