/** Folding output events into a list of outputs. The rules exist twice: for a notebook cell
    (core/src/session.rs, Session::apply_event) and for an Output widget that captures
    (core/src/widgets.rs, apply_captured). */
module OutputFold {
  import opened Json

  datatype Event =
    | Stream(name: string, text: string)
    | DisplayData(data: Value, metadata: Value, transient: Value)
    | ExecuteResult(count: nat, result: Value, resultMetadata: Value)
    | Error(ename: string, evalue: string, traceback: seq<string>)
    | ClearOutput(wait: bool)

  function StreamOutput(name: string, text: string): Value {
    Obj(map["output_type" := Str("stream"), "name" := Str(name), "text" := Str(text)])
  }

  /** The output an event other than a stream or a clear adds. `transient` is kept only with a
      display_id, so that a later update_display_data finds the output. */
  function NewOutput(ev: Event): Value
    requires !ev.ClearOutput?
  {
    match ev
    case Stream(name, text) => StreamOutput(name, text)
    case DisplayData(data, metadata, transient) =>
      var out := map["output_type" := Str("display_data"), "data" := data, "metadata" := metadata];
      Obj(if Get(transient, "display_id").Some? then out["transient" := transient] else out)
    case ExecuteResult(count, data, metadata) =>
      Obj(map["output_type" := Str("execute_result"), "execution_count" := Num(count), "data" := data,
              "metadata" := metadata])
    case Error(ename, evalue, traceback) =>
      Obj(map["output_type" := Str("error"), "ename" := Str(ename), "evalue" := Str(evalue),
              "traceback" := Arr(seq(|traceback|, i requires 0 <= i < |traceback| => Str(traceback[i])))])
  }

  /** `value[key]`: null where there is nothing. */
  function At(v: Value, key: string): Value {
    if Get(v, key).Some? then Get(v, key).value else Null
  }

  // ---- the Output widget ----

  function CapturedOutputs(outputs: seq<Value>, ev: Event): seq<Value>
    requires !ev.ClearOutput?
  {
    if ev.Stream? && outputs != [] && At(outputs[|outputs| - 1], "output_type") == Str("stream")
       && At(outputs[|outputs| - 1], "name") == Str(ev.name) then
      var last := outputs[|outputs| - 1];
      var text := match Get(last, "text")
        case Some(Str(prev)) => prev + ev.text
        case _ => ev.text;
      outputs[|outputs| - 1 := Obj(last.fields["text" := Str(text)])]
    else
      outputs + [NewOutput(ev)]
  }

  datatype Folded = Folded(outputs: seq<Value>, clearPending: bool)

  /** apply_captured */
  function Captured(f: Folded, ev: Event): Folded {
    match ev
    case ClearOutput(wait) => if wait then Folded(f.outputs, true) else Folded([], false)
    case _ => Folded(CapturedOutputs(if f.clearPending then [] else f.outputs, ev), false)
  }

  function CaptureAll(f: Folded, evs: seq<Event>): Folded {
    if evs == [] then f else Captured(CaptureAll(f, evs[..|evs| - 1]), evs[|evs| - 1])
  }

  // ---- what an event leaves ----

  /** The outputs an event meets: none, once a deferred clear is open. */
  function Shown(f: Folded): seq<Value> {
    if f.clearPending then [] else f.outputs
  }

  predicate IsStream(out: Value, name: string) {
    Get(out, "output_type") == Some(Str("stream")) && Get(out, "name") == Some(Str(name))
  }

  predicate EndsInStream(outputs: seq<Value>, name: string) {
    outputs != [] && IsStream(outputs[|outputs| - 1], name)
  }

  /** An object with these fields and no other. */
  predicate HasFields(out: Value, keys: set<string>) {
    out.Obj? && out.fields.Keys == keys
  }

  predicate AreTexts(v: Option<Value>, texts: seq<string>) {
    && v.Some? && v.value.Arr? && |v.value.items| == |texts|
    && forall i | 0 <= i < |texts| :: v.value.items[i] == Str(texts[i])
  }

  /** The output as it is read: what kind it is, and every field of the event in its place. */
  predicate Tells(out: Value, ev: Event)
    requires !ev.ClearOutput?
  {
    match ev
    case Stream(name, text) =>
      HasFields(out, {"output_type", "name", "text"}) && IsStream(out, name) && Get(out, "text") == Some(Str(text))
    case DisplayData(data, metadata, transient) =>
      && Get(out, "output_type") == Some(Str("display_data"))
      && Get(out, "data") == Some(data) && Get(out, "metadata") == Some(metadata)
      && if Get(transient, "display_id").Some?
         then HasFields(out, {"output_type", "data", "metadata", "transient"}) && Get(out, "transient") == Some(transient)
         else HasFields(out, {"output_type", "data", "metadata"})
    case ExecuteResult(count, data, metadata) =>
      && HasFields(out, {"output_type", "execution_count", "data", "metadata"})
      && Get(out, "output_type") == Some(Str("execute_result")) && Get(out, "execution_count") == Some(Num(count))
      && Get(out, "data") == Some(data) && Get(out, "metadata") == Some(metadata)
    case Error(ename, evalue, traceback) =>
      && HasFields(out, {"output_type", "ename", "evalue", "traceback"})
      && Get(out, "output_type") == Some(Str("error"))
      && Get(out, "ename") == Some(Str(ename)) && Get(out, "evalue") == Some(Str(evalue))
      && AreTexts(Get(out, "traceback"), traceback)
  }

  /** One output more, and the earlier ones as they were. */
  predicate Adds(was: seq<Value>, now: seq<Value>) {
    |now| == |was| + 1 && now[..|was|] == was
  }

  /** The last output goes on with this text, with every other field and output as it was. */
  ghost predicate GoesOn(was: seq<Value>, text: string, now: seq<Value>)
    requires was != []
  {
    var n := |was| - 1;
    && |now| == |was| && now[..n] == was[..n] && now[n].Obj?
    && Get(now[n], "text") == Some(Str(StrOf(Get(was[n], "text")) + text))
    && forall k :: k != "text" ==> Get(now[n], k) == Get(was[n], k)
  }

  /** What one event leaves in a list of outputs. */
  ghost predicate Leaves(f: Folded, ev: Event, now: seq<Value>) {
    if ev.ClearOutput? then now == if ev.wait then f.outputs else []
    else if ev.Stream? && EndsInStream(Shown(f), ev.name) then GoesOn(Shown(f), ev.text, now)
    else Adds(Shown(f), now) && Tells(now[|now| - 1], ev)
  }

  lemma CapturedLeaves(f: Folded, ev: Event)
    ensures Leaves(f, ev, Captured(f, ev).outputs)
  {
    var was, now := Shown(f), Captured(f, ev).outputs;
    if ev.Stream? && EndsInStream(was, ev.name) {
      var prev := Get(was[|was| - 1], "text");
      assert "" + ev.text == ev.text;
    }
  }

  /** apply_captured, as it changes the list of an Output widget. */
  method ApplyCaptured(was: seq<Value>, wasPending: bool, ev: Event)
    returns (outputs: seq<Value>, clearPending: bool, clearFirst: bool)
    ensures Folded(outputs, clearPending) == Captured(Folded(was, wasPending), ev)
    ensures Leaves(Folded(was, wasPending), ev, outputs)
    ensures clearFirst <==> wasPending && !ev.ClearOutput?
  {
    CapturedLeaves(Folded(was, wasPending), ev);
    outputs, clearPending, clearFirst := was, wasPending, false;
    if !ev.ClearOutput? && clearPending {
      outputs := [];
      clearPending := false;
      clearFirst := true;
    }
    match ev
    case Stream(name, text) =>
      var coalesced := false;
      if outputs != [] {
        var last := outputs[|outputs| - 1];
        if At(last, "output_type") == Str("stream") && At(last, "name") == Str(name) {
          var prev := Get(last, "text");
          var joined := if prev.Some? && prev.value.Str? then prev.value.s + text else text;
          outputs := outputs[|outputs| - 1 := Obj(last.fields["text" := Str(joined)])];
          coalesced := true;
        }
      }
      if !coalesced {
        outputs := outputs + [NewOutput(ev)];
      }
    case ClearOutput(wait) =>
      if wait {
        clearPending := true;
      } else {
        outputs := [];
        clearPending := false;
      }
    case _ =>
      outputs := outputs + [NewOutput(ev)];
  }

  // ---- the cell ----

  function CellOutputs(outputs: seq<Value>, ev: Event): seq<Value>
    requires !ev.ClearOutput?
  {
    if ev.Stream? && outputs != [] && StrOf(Get(outputs[|outputs| - 1], "output_type")) == "stream"
       && Get(outputs[|outputs| - 1], "name") == Some(Str(ev.name)) then
      var last := outputs[|outputs| - 1];
      outputs[|outputs| - 1 := Obj(last.fields["text" := Str(StrOf(Get(last, "text")) + ev.text)])]
    else
      outputs + [NewOutput(ev)]
  }

  /** apply_event: a clear without wait leaves a deferred clear where it is. */
  function Applied(f: Folded, ev: Event): Folded {
    match ev
    case ClearOutput(wait) => if wait then Folded(f.outputs, true) else Folded([], f.clearPending)
    case _ => Folded(CellOutputs(if f.clearPending then [] else f.outputs, ev), false)
  }

  function ApplyAll(f: Folded, evs: seq<Event>): Folded {
    if evs == [] then f else Applied(ApplyAll(f, evs[..|evs| - 1]), evs[|evs| - 1])
  }

  /** A deferred clear that no output has taken up yet. */
  predicate DeferredOpen(evs: seq<Event>) {
    evs != [] && evs[|evs| - 1].ClearOutput? &&
    (evs[|evs| - 1].wait || DeferredOpen(evs[..|evs| - 1]))
  }

  /** A deferred clear is open, and the last clear was an immediate one. */
  predicate ClearedTwiceOpen(evs: seq<Event>) {
    DeferredOpen(evs) && !evs[|evs| - 1].wait
  }

  lemma SameStep(outputs: seq<Value>, ev: Event)
    requires !ev.ClearOutput?
    ensures CapturedOutputs(outputs, ev) == CellOutputs(outputs, ev)
  {
    if ev.Stream? { assert "" + ev.text == ev.text; }
  }

  /** Both folders leave the same outputs, whatever the events. Their deferred-clear flags differ
      exactly when the last events are an immediate clear that follows a deferred one, and there
      the outputs are empty, so the extra clear of the cell is never seen. */
  lemma {:induction false} FoldersAgree(outputs: seq<Value>, evs: seq<Event>)
    ensures ApplyAll(Folded(outputs, false), evs).outputs == CaptureAll(Folded(outputs, false), evs).outputs
    ensures ApplyAll(Folded(outputs, false), evs).clearPending <==> DeferredOpen(evs)
    ensures CaptureAll(Folded(outputs, false), evs).clearPending <==> DeferredOpen(evs) && !ClearedTwiceOpen(evs)
    ensures ClearedTwiceOpen(evs) ==> CaptureAll(Folded(outputs, false), evs).outputs == []
  {
    if evs != [] {
      var init := evs[..|evs| - 1];
      var ev := evs[|evs| - 1];
      FoldersAgree(outputs, init);
      if !ev.ClearOutput? {
        var cell := ApplyAll(Folded(outputs, false), init);
        SameStep(if cell.clearPending then [] else cell.outputs, ev);
        if ClearedTwiceOpen(init) { assert cell.outputs == []; }
      }
    }
  }

  lemma AppliedLeaves(f: Folded, ev: Event)
    ensures Leaves(f, ev, Applied(f, ev).outputs)
  {
    CapturedLeaves(f, ev);
    if !ev.ClearOutput? { SameStep(Shown(f), ev); }
  }

  /** After any events, one more leaves what it should in a cell and in an Output widget. */
  lemma AfterEvent(f: Folded, evs: seq<Event>, ev: Event)
    ensures Leaves(CaptureAll(f, evs), ev, CaptureAll(f, evs + [ev]).outputs)
    ensures Leaves(ApplyAll(f, evs), ev, ApplyAll(f, evs + [ev]).outputs)
  {
    assert (evs + [ev])[..|evs|] == evs;
    CapturedLeaves(CaptureAll(f, evs), ev);
    AppliedLeaves(ApplyAll(f, evs), ev);
  }

  predicate AllStreams(evs: seq<Event>, name: string) {
    forall ev <- evs :: ev.Stream? && ev.name == name
  }

  /** The texts of a run of stream events, in order. */
  function Said(evs: seq<Event>): string {
    if evs == [] then ""
    else Said(evs[..|evs| - 1]) + if evs[|evs| - 1].Stream? then evs[|evs| - 1].text else ""
  }

  /** What a run of stream events of one name leaves: its texts in order, in one output, the one
      before it if that is the stream. */
  ghost predicate LeavesText(was: seq<Value>, name: string, text: string, now: seq<Value>) {
    if EndsInStream(was, name) then GoesOn(was, text, now)
    else Adds(was, now) && Tells(now[|now| - 1], Stream(name, text))
  }

  lemma TextGoesOn(was: seq<Value>, name: string, text: string, mid: Folded, more: string, now: seq<Value>)
    requires LeavesText(was, name, text, mid.outputs) && !mid.clearPending && Leaves(mid, Stream(name, more), now)
    ensures LeavesText(was, name, text + more, now) && EndsInStream(mid.outputs, name)
  {
    var n := |mid.outputs| - 1;
    var prev, last := mid.outputs[n], now[n];
    assert IsStream(prev, name);
    if EndsInStream(was, name) {
      var t := StrOf(Get(was[n], "text"));
      assert t + text + more == t + (text + more);
    } else {
      assert now[..|was|] == mid.outputs[..n];
      assert forall k :: k in last.fields <==> Get(last, k).Some?;
      assert forall k :: k in prev.fields <==> Get(prev, k).Some?;
      assert last.fields.Keys == prev.fields.Keys;
    }
  }

  lemma {:induction false} StreamsJoin(f: Folded, evs: seq<Event>, name: string)
    requires evs != [] && AllStreams(evs, name)
    ensures var now := CaptureAll(f, evs); !now.clearPending && LeavesText(Shown(f), name, Said(evs), now.outputs)
    ensures var now := ApplyAll(f, evs); !now.clearPending && LeavesText(Shown(f), name, Said(evs), now.outputs)
  {
    var init, ev := evs[..|evs| - 1], evs[|evs| - 1];
    assert ev in evs && ev == Stream(name, ev.text);
    CapturedLeaves(CaptureAll(f, init), ev);
    AppliedLeaves(ApplyAll(f, init), ev);
    if init == [] {
      assert Said(init) + ev.text == ev.text;
    } else {
      StreamsJoin(f, init, name);
      TextGoesOn(Shown(f), name, Said(init), CaptureAll(f, init), ev.text, CaptureAll(f, evs).outputs);
      TextGoesOn(Shown(f), name, Said(init), ApplyAll(f, init), ev.text, ApplyAll(f, evs).outputs);
    }
  }

  // ---- in place ----

  /** What apply_event changes in a cell for these events. */
  class Cell {
    var outputs: seq<Value>
    var executionCount: Option<nat>
    var clearPending: bool

    constructor (outputs: seq<Value>)
      ensures this.outputs == outputs && executionCount == None && !clearPending
    {
      this.outputs, executionCount, clearPending := outputs, None, false;
    }

    method ApplyEvent(ev: Event) returns (clearFirst: bool)
      modifies this
      ensures Folded(outputs, clearPending) == Applied(old(Folded(outputs, clearPending)), ev)
      ensures Leaves(old(Folded(outputs, clearPending)), ev, outputs)
      ensures clearFirst <==> old(clearPending) && !ev.ClearOutput?
      ensures executionCount == if ev.ExecuteResult? then Some(ev.count) else old(executionCount)
    {
      AppliedLeaves(Folded(outputs, clearPending), ev);
      clearFirst := !ev.ClearOutput? && clearPending;
      if clearFirst {
        clearPending := false;
        outputs := [];
      }
      match ev
      case Stream(name, text) =>
        if outputs != [] {
          var last := outputs[|outputs| - 1];
          if StrOf(Get(last, "output_type")) == "stream" && Get(last, "name") == Some(Str(name)) {
            var prev := StrOf(Get(last, "text"));
            outputs := outputs[|outputs| - 1 := Obj(last.fields["text" := Str(prev + text)])];
          } else {
            outputs := outputs + [NewOutput(ev)];
          }
        } else {
          outputs := outputs + [NewOutput(ev)];
        }
      case DisplayData(_, _, _) =>
        outputs := outputs + [NewOutput(ev)];
      case ExecuteResult(count, _, _) =>
        executionCount := Some(count);
        outputs := outputs + [NewOutput(ev)];
      case Error(_, _, _) =>
        outputs := outputs + [NewOutput(ev)];
      case ClearOutput(wait) =>
        if wait {
          clearPending := true;
        } else {
          outputs := [];
        }
    }
  }
}
