/** Before anything asks the kernel to run code, the captured outputs that wait go out, so that the
    code reads the outputs as they stand (core/src/widgets.rs: flush_before_request). */
module WidgetRequests {
  import opened Json
  import opened Attributes
  import opened WidgetStore
  import opened WidgetInvariants

  predicate IsFlushOf(effect: Effect, id: Id, m: Model) {
    effect.Send? && effect.msg.comm == id && effect.msg.body == FlushBody(m)
  }

  /** Between the two positions a flush of the model goes out. */
  predicate FlushedWithin(fx: seq<Effect>, from: nat, to: nat, id: Id, m: Model) {
    from <= to <= |fx| && exists k | from <= k < to :: IsFlushOf(fx[k], id, m)
  }

  lemma SendOutputsAdds(st: Store, id: Id, now: Time)
    ensures var st2 := SendOutputs(st, id, now, false);
            && st.fx <= st2.fx && st2.models.Keys == st.models.Keys
            && (forall x | x != id :: CanGo(st, x) <==> CanGo(st2, x))
            && (forall x <- st.models | x != id :: st2.models[x] == st.models[x])
            && !CanGo(st2, id)
            && (CanGo(st, id) ==> |st2.fx| == |st.fx| + 1 && IsFlushOf(st2.fx[|st.fx|], id, st.models[id]))
  {
  }

  /** Every capture that can go out does, as it stands, and none is left behind. */
  lemma {:induction false} CapturesGo(st: Store, order: seq<Id>, now: Time)
    ensures var st2 := FlushAll(st, order, now);
            && st.fx <= st2.fx
            && (forall x <- order | CanGo(st, x) :: FlushedWithin(st2.fx, |st.fx|, |st2.fx|, x, st.models[x]))
            && (forall x :: CanGo(st2, x) <==> CanGo(st, x) && x !in order)
    decreases |order|
  {
    if order != [] {
      var st1 := SendOutputs(st, order[0], now, false);
      var st2 := FlushAll(st, order, now);
      SendOutputsAdds(st, order[0], now);
      CapturesGo(st1, order[1..], now);
      forall x | x in order && CanGo(st, x) ensures FlushedWithin(st2.fx, |st.fx|, |st2.fx|, x, st.models[x]) {
        if x == order[0] {
          assert IsFlushOf(st2.fx[|st.fx|], x, st.models[x]);
        } else {
          assert x in order[1..] && CanGo(st1, x);
          var k :| |st1.fx| <= k < |st2.fx| && IsFlushOf(st2.fx[k], x, st1.models[x]);
          assert IsFlushOf(st2.fx[k], x, st.models[x]);
        }
      }
    }
  }

  predicate IsUpdateOf(effect: Effect, id: Id, update: Attrs, cell: Option<string>) {
    effect.Send? && effect.msg.comm == id && effect.msg.body == Update(update) && effect.msg.cell == cell
  }

  /** An update is the last message of its call, after a flush of every capture that could go out. */
  lemma UpdateGoesLast(st: Store, id: Id, update: Attrs, cell: Option<string>, e: Env)
    requires id in st.models && forall x | CanGo(st, x) :: x in e.order
    ensures var fx := SendUpdate(st, id, update, cell, e).fx;
            && st.fx <= fx && |fx| >= |st.fx| + 2
            && IsUpdateOf(fx[|fx| - 2], id, update, cell)
            && forall x | CanGo(st, x) :: FlushedWithin(fx, |st.fx|, |fx| - 2, x, st.models[x])
  {
    FlushAllKeepsModels(st, e.order, e.now);
    CapturesGo(st, e.order, e.now);
    var flushed := FlushAll(st, e.order, e.now);
    var fx := SendUpdate(st, id, update, cell, e).fx;
    assert fx[..|flushed.fx|] == flushed.fx && |fx| == |flushed.fx| + 2;
    forall x | CanGo(st, x) ensures FlushedWithin(fx, |st.fx|, |fx| - 2, x, st.models[x]) {
      var k :| |st.fx| <= k < |flushed.fx| && IsFlushOf(flushed.fx[k], x, st.models[x]);
      assert IsFlushOf(fx[k], x, st.models[x]);
    }
  }

  /** So is a custom message of the frontend. */
  lemma CustomGoesLast(st: Store, id: Id, content: Value, cell: Option<string>, e: Env)
    requires IsLive(st, id) && forall x | CanGo(st, x) :: x in e.order
    ensures var fx := FrontendCustom(st, id, content, cell, e).fx;
            && st.fx <= fx && |fx| >= |st.fx| + 1
            && fx[|fx| - 1].Send? && fx[|fx| - 1].msg.comm == id && fx[|fx| - 1].msg.body == Custom(content)
            && forall x | CanGo(st, x) :: FlushedWithin(fx, |st.fx|, |fx| - 1, x, st.models[x])
  {
    CapturesGo(st, e.order, e.now);
    var flushed := FlushAll(st, e.order, e.now);
    var fx := FrontendCustom(st, id, content, cell, e).fx;
    assert fx[..|flushed.fx|] == flushed.fx && |fx| == |flushed.fx| + 1;
    forall x | CanGo(st, x) ensures FlushedWithin(fx, |st.fx|, |fx| - 1, x, st.models[x]) {
      var k :| |st.fx| <= k < |flushed.fx| && IsFlushOf(flushed.fx[k], x, st.models[x]);
      assert IsFlushOf(fx[k], x, st.models[x]);
    }
  }
}
