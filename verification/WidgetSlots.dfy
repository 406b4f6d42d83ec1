/** The slots of the buffers under an Output widget's outputs, when output is captured into them
    (core/src/widgets.rs: route_output, update_display). Everywhere else a buffer's slot in the state
    is empty (WidgetInvariants.SlotOk); both of these write the list without looking at the buffers. */
module WidgetSlots {
  import opened Json
  import opened Attributes
  import opened WidgetStore
  import OutputFold

  function Items(e: Entry): seq<Value> {
    if e.value.Some? && e.value.value.Arr? then e.value.value.items else []
  }

  /** The outputs attribute after a capture. */
  function AfterCapture(e: Entry, clearPending: bool, ev: OutputFold.Event): Entry {
    e.(value := Some(Arr(OutputFold.Captured(OutputFold.Folded(Items(e), clearPending), ev).outputs)))
  }

  /** The stream joins the output before it. */
  predicate Coalesces(outputs: seq<Value>, ev: OutputFold.Event) {
    ev.Stream? && outputs != [] &&
    OutputFold.At(outputs[|outputs| - 1], "output_type") == Str("stream") &&
    OutputFold.At(outputs[|outputs| - 1], "name") == Str(ev.name)
  }

  /** What a capture writes leaves the slot of a buffer empty: a clear writes nothing; a stream that
      joins the last output writes its text; any other event writes a whole output after the last,
      or in place of all when a clear is pending. */
  predicate LeavesSlot(path: Path, outputs: seq<Value>, ev: OutputFold.Event)
    requires path != []
  {
    if ev.ClearOutput? then true
    else if Coalesces(outputs, ev) then path != [Index(|outputs| - 1), Name("text")]
    else path[0] == Index(|outputs|) ==> |path| > 1 && SlotEmpty(OutputFold.NewOutput(ev), path[1..])
  }

  function Uncleared(e: Entry, clearPending: bool): seq<Value> {
    if clearPending then [] else Items(e)
  }

  lemma CoalescedSlot(e: Entry, ev: OutputFold.Event, b: Buf)
    requires Stripped(e) && b in e.bufs && b.path != [] && Coalesces(Items(e), ev)
    ensures SlotEmpty(AfterCapture(e, false, ev).value.value, b.path) <==> LeavesSlot(b.path, Items(e), ev)
  {
    var was, now := Items(e), Items(AfterCapture(e, false, ev));
    var n := |was| - 1;
    StrippedIffSlotsEmpty(e);
    assert SlotEmpty(e.value.value, b.path);
    assert now[n].Obj? && was[n].Obj? && now[n].fields["text"].Str?;
    if b.path[0].Index? && b.path[0].i < n {
      assert now[b.path[0].i] == was[b.path[0].i];
    } else if b.path[0] == Index(n) {
      assert |b.path| > 1 && SlotEmpty(was[n], b.path[1..]);
      assert now[n] == Obj(was[n].fields["text" := now[n].fields["text"]]);
      TextSlot(was[n].fields, b.path[1..], now[n].fields["text"].s);
      assert b.path == [Index(n)] + b.path[1..];
    }
  }

  lemma TextSlot(fields: map<string, Value>, path: Path, text: string)
    requires path != [] && SlotEmpty(Obj(fields), path)
    ensures SlotEmpty(Obj(fields["text" := Str(text)]), path) <==> path != [Name("text")]
  {
    if |path| == 1 { assert path == [path[0]]; }
  }

  lemma AddedSlot(e: Entry, clearPending: bool, ev: OutputFold.Event, b: Buf)
    requires Stripped(e) && b in e.bufs && b.path != []
    requires !ev.ClearOutput? && !Coalesces(Uncleared(e, clearPending), ev)
    ensures SlotEmpty(AfterCapture(e, clearPending, ev).value.value, b.path) <==>
            LeavesSlot(b.path, Uncleared(e, clearPending), ev)
  {
    var was, now := Uncleared(e, clearPending), Items(AfterCapture(e, clearPending, ev));
    assert now == was + [OutputFold.NewOutput(ev)];
    StrippedIffSlotsEmpty(e);
    if b.path[0].Index? && b.path[0].i < |was| {
      assert SlotEmpty(e.value.value, b.path);
      assert now[b.path[0].i] == Items(e)[b.path[0].i];
    } else if b.path[0] == Index(|was|) {
      assert now[|was|] == OutputFold.NewOutput(ev) && OutputFold.NewOutput(ev).Obj?;
    }
  }

  lemma ClearedSlot(e: Entry, clearPending: bool, ev: OutputFold.Event, b: Buf)
    requires Stripped(e) && b in e.bufs && b.path != [] && ev.ClearOutput?
    ensures SlotEmpty(AfterCapture(e, clearPending, ev).value.value, b.path)
  {
    var now := Items(AfterCapture(e, clearPending, ev));
    StrippedIffSlotsEmpty(e);
    if b.path[0].Index? && b.path[0].i < |now| {
      assert now == Items(e) && SlotEmpty(e.value.value, b.path);
    }
  }

  /** A capture keeps the slots empty exactly when no buffer is the list itself and what it writes
      leaves the slot of each. */
  lemma CaptureKeepsSlots(e: Entry, clearPending: bool, ev: OutputFold.Event)
    requires Stripped(e)
    ensures Stripped(AfterCapture(e, clearPending, ev)) <==>
            forall b <- e.bufs :: b.path != [] && LeavesSlot(b.path, Uncleared(e, clearPending), ev)
  {
    var after := AfterCapture(e, clearPending, ev);
    StrippedIffSlotsEmpty(after);
    forall b | b in e.bufs && b.path != []
      ensures SlotEmpty(after.value.value, b.path) <==> LeavesSlot(b.path, Uncleared(e, clearPending), ev)
    {
      if ev.ClearOutput? {
        ClearedSlot(e, clearPending, ev, b);
      } else if Coalesces(Uncleared(e, clearPending), ev) {
        CoalescedSlot(e, ev, b);
      } else {
        AddedSlot(e, clearPending, ev, b);
      }
    }
  }

  /** A buffer for a slot past the end of the list is saved beside the output that came there. */
  lemma CaptureFillsSlot(bytes: Bytes, text: string)
    ensures var e := Entry(Some(Arr([])), {Buf([Index(0)], bytes)});
            Stripped(e) && !Stripped(AfterCapture(e, false, OutputFold.Stream("stdout", text)))
  {
    var e := Entry(Some(Arr([])), {Buf([Index(0)], bytes)});
    StrippedIffSlotsEmpty(e);
    CaptureKeepsSlots(e, false, OutputFold.Stream("stdout", text));
    assert Buf([Index(0)], bytes) in e.bufs;
  }

  /** route_output: the slots under the capturing model's outputs stay empty exactly then. */
  lemma RouteKeepsSlots(st: Store, parent: string, ev: OutputFold.Event)
    requires CapturingModel(st, parent).Some?
    requires Stripped(AttrOf(st.models[CapturingModel(st, parent).value], "outputs"))
    ensures var id := CapturingModel(st, parent).value;
            var m := st.models[id];
            var was := AttrOf(m, "outputs");
            Stripped(AttrOf(RouteOutput(st, parent, ev).models[id], "outputs")) <==>
            forall b <- was.bufs :: b.path != [] && LeavesSlot(b.path, Uncleared(was, m.clearPending), ev)
  {
    var id := CapturingModel(st, parent).value;
    var m := st.models[id];
    assert OutputsOf(m) == Items(AttrOf(m, "outputs"));
    assert AttrOf(RouteOutput(st, parent, ev).models[id], "outputs") == AfterCapture(AttrOf(m, "outputs"), m.clearPending, ev);
    CaptureKeepsSlots(AttrOf(m, "outputs"), m.clearPending, ev);
  }

  // ---- update_display ----

  /** The outputs attribute after an update of a display it shows. */
  function AfterDisplay(e: Entry, display: string, data: Value, metadata: Value): Entry {
    e.(value := Some(Arr(Redisplayed(Items(e), display, data, metadata))))
  }

  /** What replaces the data and the metadata of an output leaves a slot in it empty. */
  predicate LeavesInside(path: Path, data: Value, metadata: Value)
    requires path != []
  {
    && (path[0] == Name("data") ==> |path| > 1 && SlotEmpty(data, path[1..]))
    && (path[0] == Name("metadata") ==> |path| > 1 && SlotEmpty(metadata, path[1..]))
  }

  /** The slot is in an output that shows the display. */
  predicate InShown(path: Path, outputs: seq<Value>, display: string) {
    |path| > 1 && path[0].Index? && path[0].i < |outputs| && Shows(outputs[path[0].i], display)
  }

  lemma DisplayedSlot(e: Entry, display: string, data: Value, metadata: Value, b: Buf)
    requires Stripped(e) && b in e.bufs && e.value.Some? && e.value.value.Arr?
    ensures b.path != []
    ensures SlotEmpty(AfterDisplay(e, display, data, metadata).value.value, b.path) <==>
            (InShown(b.path, Items(e), display) ==> LeavesInside(b.path[1..], data, metadata))
  {
    var was, now := Items(e), Items(AfterDisplay(e, display, data, metadata));
    StrippedIffSlotsEmpty(e);
    assert b.path != [] && SlotEmpty(e.value.value, b.path);
    if b.path[0].Index? && b.path[0].i < |was| {
      var i := b.path[0].i;
      if Shows(was[i], display) {
        assert was[i].Obj? && now[i] == Obj(was[i].fields["data" := data]["metadata" := metadata]);
        assert |b.path| > 1 && SlotEmpty(was[i], b.path[1..]);
        InsideSlot(was[i].fields, b.path[1..], data, metadata);
      } else {
        assert now[i] == was[i];
      }
    }
  }

  lemma InsideSlot(fields: map<string, Value>, path: Path, data: Value, metadata: Value)
    requires path != [] && SlotEmpty(Obj(fields), path)
    ensures SlotEmpty(Obj(fields["data" := data]["metadata" := metadata]), path) <==> LeavesInside(path, data, metadata)
  {
  }

  /** update_display: the slots under the outputs of a model that shows the display stay empty
      exactly when the new data and metadata leave every slot that a buffer has in an output shown. */
  lemma DisplayKeepsSlots(st: Store, id: Id, display: string, data: Value, metadata: Value)
    requires IsLive(st, id) && st.models[id].name == OUTPUT_MODEL && Stripped(AttrOf(st.models[id], "outputs"))
    requires exists out <- OutputsOf(st.models[id]) :: Shows(out, display)
    ensures var was := AttrOf(st.models[id], "outputs");
            Stripped(AttrOf(UpdateDisplayOf(st, id, display, data, metadata).models[id], "outputs")) <==>
            forall b <- was.bufs | InShown(b.path, Items(was), display) :: LeavesInside(b.path[1..], data, metadata)
  {
    var was := AttrOf(st.models[id], "outputs");
    assert OutputsOf(st.models[id]) == Items(was);
    var after := AfterDisplay(was, display, data, metadata);
    assert AttrOf(UpdateDisplayOf(st, id, display, data, metadata).models[id], "outputs") == after;
    StrippedIffSlotsEmpty(after);
    forall b | b in was.bufs
      ensures b.path != []
      ensures SlotEmpty(after.value.value, b.path) <==>
              (InShown(b.path, Items(was), display) ==> LeavesInside(b.path[1..], data, metadata))
    {
      DisplayedSlot(was, display, data, metadata, b);
    }
  }

  /** An output that shows the display "d", with a buffer for an image it does not have as text. */
  function WithImage(bytes: Bytes): Entry {
    Entry(Some(Arr([Obj(map["transient" := Obj(map["display_id" := Str("d")]), "data" := Obj(map[])])])),
          {Buf([Index(0), Name("data"), Name("image/png")], bytes)})
  }

  lemma ImageSlot(bytes: Bytes)
    ensures Stripped(WithImage(bytes)) && Shows(Items(WithImage(bytes))[0], "d")
  {
    var path := [Index(0), Name("data"), Name("image/png")];
    assert path[1..] == [Name("data"), Name("image/png")] && path[1..][1..] == [Name("image/png")];
    StrippedIffSlotsEmpty(WithImage(bytes));
  }

  /** That buffer is saved beside the image an update of the display brings as text. */
  lemma DisplayFillsSlot(bytes: Bytes, image: string)
    ensures Stripped(WithImage(bytes)) && Shows(Items(WithImage(bytes))[0], "d")
    ensures !Stripped(AfterDisplay(WithImage(bytes), "d", Obj(map["image/png" := Str(image)]), Obj(map[])))
  {
    var b := Buf([Index(0), Name("data"), Name("image/png")], bytes);
    var data := Obj(map["image/png" := Str(image)]);
    ImageSlot(bytes);
    assert b in WithImage(bytes).bufs;
    assert b.path[1..] == [Name("data"), Name("image/png")] && b.path[1..][1..] == [Name("image/png")];
    DisplayedSlot(WithImage(bytes), "d", data, Obj(map[]), b);
    StrippedIffSlotsEmpty(AfterDisplay(WithImage(bytes), "d", data, Obj(map[])));
  }
}
