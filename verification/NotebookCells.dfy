/** Notebook cells as they are read from and written to nbformat v4 (core/src/notebook.rs). */
module NotebookCells {
  import opened Json

  const U64_MAX: nat := 0xFFFF_FFFF_FFFF_FFFF
  type U64 = n: nat | n <= U64_MAX

  datatype CellType = Code | Markdown | Raw

  datatype Cell = Cell(
    id: string,
    cellType: CellType,
    source: string,
    executionCount: Option<U64>,
    outputs: seq<Value>,
    metadata: Value,
    extra: map<string, Value>
  )

  datatype Parsed = Ok(cell: Cell) | NotAnObject

  const KNOWN: set<string> := {"cell_type", "id", "source", "execution_count", "outputs", "metadata"}

  function TypeName(t: CellType): string {
    match t
    case Code => "code"
    case Markdown => "markdown"
    case Raw => "raw"
  }

  function TypeOf(s: string): CellType {
    if s == "markdown" then Markdown else if s == "raw" then Raw else Code
  }

  // ---- the source ----

  /** One more character: it joins the last line, or starts one. */
  function Grow(lines: seq<string>, c: char): (r: seq<string>)
    ensures r != []
  {
    if lines == [] || EndsLine(lines[|lines| - 1]) then lines + [[c]]
    else lines[..|lines| - 1] + [lines[|lines| - 1] + [c]]
  }

  /** split_inclusive: the lines, each with its newline. */
  function Lines(src: string): seq<string> {
    if src == "" then [] else Grow(Lines(src[..|src| - 1]), src[|src| - 1])
  }

  predicate EndsLine(line: string) {
    line != "" && line[|line| - 1] == '\n'
  }

  function Join(lines: seq<string>): string {
    if lines == [] then "" else Join(lines[..|lines| - 1]) + lines[|lines| - 1]
  }

  predicate IsLine(line: string) {
    line != "" && '\n' !in line[..|line| - 1]
  }

  /** A line has one newline, its last character, which only the last line may lack. */
  predicate AreLines(lines: seq<string>) {
    (forall l <- lines :: IsLine(l)) && forall i | 0 <= i < |lines| - 1 :: EndsLine(lines[i])
  }

  lemma JoinLast(init: seq<string>, last: string)
    ensures Join(init + [last]) == Join(init) + last
  {
    assert (init + [last])[..|init|] == init;
  }

  lemma JoinGrown(lines: seq<string>, c: char)
    ensures Join(Grow(lines, c)) == Join(lines) + [c]
  {
    if lines == [] || EndsLine(lines[|lines| - 1]) {
      JoinLast(lines, [c]);
    } else {
      var init, last := lines[..|lines| - 1], lines[|lines| - 1];
      JoinLast(init, last + [c]);
      assert Join(init) + (last + [c]) == Join(init) + last + [c];
    }
  }

  lemma LongerLine(last: string, c: char)
    requires IsLine(last) && !EndsLine(last)
    ensures IsLine(last + [c])
  {
    assert last == last[..|last| - 1] + [last[|last| - 1]];
    assert (last + [c])[..|last|] == last;
  }

  lemma GrownAreLines(lines: seq<string>, c: char)
    requires AreLines(lines)
    ensures AreLines(Grow(lines, c))
  {
    if lines != [] && !EndsLine(lines[|lines| - 1]) {
      LongerLine(lines[|lines| - 1], c);
    } else {
      assert IsLine([c]);
    }
  }

  /** The printed lines join back to the source, and each is a line. */
  lemma {:induction false} LinesJoinBack(src: string)
    ensures Join(Lines(src)) == src && AreLines(Lines(src))
    decreases |src|
  {
    if src != "" {
      var text, c := src[..|src| - 1], src[|src| - 1];
      LinesJoinBack(text);
      JoinGrown(Lines(text), c);
      GrownAreLines(Lines(text), c);
      assert src == text + [c];
    }
  }

  /** Lines without their last character. */
  function Shrunk(lines: seq<string>): seq<string>
    requires lines != [] && lines[|lines| - 1] != ""
  {
    var init, last := lines[..|lines| - 1], lines[|lines| - 1];
    if |last| == 1 then init else init + [last[..|last| - 1]]
  }

  lemma ShorterLine(last: string)
    requires IsLine(last) && |last| > 1
    ensures IsLine(last[..|last| - 1]) && !EndsLine(last[..|last| - 1])
  {
    var cut := last[..|last| - 1];
    assert cut[|cut| - 1] in cut;
    assert forall x <- cut[..|cut| - 1] :: x in cut;
  }

  lemma ShrunkGrows(lines: seq<string>)
    requires lines != [] && AreLines(lines)
    ensures var last := lines[|lines| - 1];
            last != "" && AreLines(Shrunk(lines)) && Grow(Shrunk(lines), last[|last| - 1]) == lines
  {
    var init, last := lines[..|lines| - 1], lines[|lines| - 1];
    assert IsLine(last);
    if |last| == 1 {
      assert [last[0]] == last;
      assert init != [] ==> EndsLine(init[|init| - 1]);
    } else {
      ShorterLine(last);
      var shorter := Shrunk(lines);
      assert last[..|last| - 1] + [last[|last| - 1]] == last;
      assert shorter[..|shorter| - 1] == init;
    }
    assert lines == init + [last];
  }

  /** There is no other way to cut a source into lines. */
  lemma {:induction false} LinesAreUnique(lines: seq<string>)
    requires AreLines(lines)
    ensures Lines(Join(lines)) == lines
    decreases |Join(lines)|
  {
    if lines != [] {
      ShrunkGrows(lines);
      var shorter, c := Shrunk(lines), lines[|lines| - 1][|lines[|lines| - 1]| - 1];
      JoinGrown(shorter, c);
      assert Join(lines)[..|Join(lines)| - 1] == Join(shorter);
      LinesAreUnique(shorter);
    }
  }

  function Strings(lines: seq<string>): seq<Value> {
    seq(|lines|, i requires 0 <= i < |lines| => Str(lines[i]))
  }

  /** The strings of a list; what is not a string is left out. */
  function Texts(items: seq<Value>): seq<string> {
    if items == [] then []
    else Texts(items[..|items| - 1]) + if items[|items| - 1].Str? then [items[|items| - 1].s] else []
  }

  lemma {:induction false} TextsOfStrings(lines: seq<string>)
    ensures Texts(Strings(lines)) == lines
  {
    if lines != [] {
      TextsOfStrings(lines[..|lines| - 1]);
      assert Strings(lines)[..|lines| - 1] == Strings(lines[..|lines| - 1]);
    }
  }

  function SourceOf(v: Option<Value>): string {
    match v
    case Some(Str(s)) => s
    case Some(Arr(items)) => Join(Texts(items))
    case _ => ""
  }

  // ---- the cell ----

  function CountOf(v: Option<Value>): Option<U64> {
    if v.Some? && v.value.Num? && 0 <= v.value.n <= U64_MAX then Some(v.value.n) else None
  }

  function Without(out: Value, key: string): Value {
    if out.Obj? then Obj(out.fields - {key}) else out
  }

  function Saved(outputs: seq<Value>): seq<Value> {
    seq(|outputs|, i requires 0 <= i < |outputs| => Without(outputs[i], "transient"))
  }

  /** from_json; `newId` is the id a cell without one gets. */
  function FromJson(v: Value, newId: string): Parsed {
    if !v.Obj? then NotAnObject
    else
      var id, t, outs, meta := Get(v, "id"), Get(v, "cell_type"), Get(v, "outputs"), Get(v, "metadata");
      Ok(Cell(
        if id.Some? && id.value.Str? then id.value.s else newId,
        if t.Some? && t.value.Str? then TypeOf(t.value.s) else Code,
        SourceOf(Get(v, "source")),
        CountOf(Get(v, "execution_count")),
        if outs.Some? && outs.value.Arr? then outs.value.items else [],
        if meta.Some? then meta.value else Obj(map[]),
        v.fields - KNOWN))
  }

  // ---- what a read cell is, field by field ----

  /** The source that stands in a cell object: a string, or a list whose strings are put together. */
  predicate ReadsSource(v: Value, source: string) {
    match Get(v, "source")
    case Some(Str(s)) => source == s
    case Some(Arr(items)) => source == Join(Texts(items))
    case _ => source == ""
  }

  predicate ReadsType(v: Value, t: CellType) {
    match Get(v, "cell_type")
    case Some(Str(s)) => t == if s == "markdown" then Markdown else if s == "raw" then Raw else Code
    case _ => t == Code
  }

  /** A count is a whole number that fits in 64 bits. */
  predicate ReadsCount(v: Value, count: Option<U64>) {
    match Get(v, "execution_count")
    case Some(Num(n)) => if 0 <= n <= U64_MAX then count == Some(n) else count == None
    case _ => count == None
  }

  /** The cell that stands in an object; `newId` is for one that has no id. */
  ghost predicate ReadsAs(v: Value, newId: string, c: Cell) {
    && v.Obj?
    && ReadsSource(v, c.source) && ReadsType(v, c.cellType) && ReadsCount(v, c.executionCount)
    && (match Get(v, "id") case Some(Str(s)) => c.id == s case _ => c.id == newId)
    && (match Get(v, "outputs") case Some(Arr(items)) => c.outputs == items case _ => c.outputs == [])
    && (match Get(v, "metadata") case Some(meta) => c.metadata == meta case None => c.metadata == Obj(map[]))
    && forall k :: (if k in c.extra then Some(c.extra[k]) else None) == if k in KNOWN then None else Get(v, k)
  }

  /** No other cell stands there. */
  lemma ReadsOnce(v: Value, newId: string, c: Cell, d: Cell)
    requires ReadsAs(v, newId, c) && ReadsAs(v, newId, d)
    ensures c == d
  {
    forall k ensures k in c.extra <==> k in d.extra
      ensures k in c.extra ==> c.extra[k] == d.extra[k] {}
    assert c.extra == d.extra;
  }

  lemma SameReads(v: Value, w: Value, newId: string, c: Cell)
    requires v.Obj? && w.Obj? && (forall k | k != "source" :: Get(v, k) == Get(w, k))
    requires ReadsSource(v, c.source) ==> ReadsSource(w, c.source)
    ensures ReadsAs(v, newId, c) ==> ReadsAs(w, newId, c)
  {
    assert "source" in KNOWN;
  }

  /** A source reads the same as a string and as any list of strings that joins to it. */
  lemma SourceAsLines(fields: map<string, Value>, lines: seq<string>, newId: string, c: Cell)
    ensures ReadsAs(Obj(fields["source" := Str(Join(lines))]), newId, c) <==>
            ReadsAs(Obj(fields["source" := Arr(Strings(lines))]), newId, c)
  {
    var whole, cut := Obj(fields["source" := Str(Join(lines))]), Obj(fields["source" := Arr(Strings(lines))]);
    TextsOfStrings(lines);
    assert Get(whole, "source") == Some(Str(Join(lines))) && Get(cut, "source") == Some(Arr(Strings(lines)));
    assert forall k | k != "source" :: Get(whole, k) == Get(cut, k);
    SameReads(whole, cut, newId, c);
    SameReads(cut, whole, newId, c);
  }

  /** What is no string in a list of lines does not count. */
  lemma {:induction false} TextsSkip(before: seq<Value>, x: Value, after: seq<Value>)
    requires !x.Str?
    ensures Texts(before + [x] + after) == Texts(before + after)
    decreases |after|
  {
    if after == [] {
      assert (before + [x] + after)[..|before|] == before && before + after == before;
    } else {
      var init := after[..|after| - 1];
      TextsSkip(before, x, init);
      assert (before + [x] + after)[..|before| + |after|] == before + [x] + init;
      assert (before + after)[..|before| + |after| - 1] == before + init;
    }
  }

  lemma FromJsonReads(v: Value, newId: string)
    requires v.Obj?
    ensures FromJson(v, newId).Ok? && ReadsAs(v, newId, FromJson(v, newId).cell)
  {
  }

  function Written(c: Cell): map<string, Value> {
    var common := map["cell_type" := Str(TypeName(c.cellType)), "id" := Str(c.id), "metadata" := c.metadata,
                      "source" := Arr(Strings(Lines(c.source)))];
    if c.cellType.Code? then
      common["execution_count" := if c.executionCount.Some? then Num(c.executionCount.value) else Null]
            ["outputs" := Arr(Saved(c.outputs))]
    else
      common
  }

  /** to_json; an extra field overwrites a field of the same name. */
  function ToJson(c: Cell): Value {
    Obj(Written(c) + c.extra)
  }

  /** What a written cell keeps: a code cell loses the bookkeeping of its outputs, any other cell
      its outputs and its count. */
  function Kept(c: Cell): Cell {
    if c.cellType.Code? then c.(outputs := Saved(c.outputs)) else c.(outputs := [], executionCount := None)
  }

  // ---- what a written cell holds, field by field ----

  /** An output as it is saved: what it was without its transient field. */
  ghost predicate SavedAs(out: Value, saved: Value) {
    if out.Obj? then saved.Obj? && forall k :: Get(saved, k) == if k == "transient" then None else Get(out, k)
    else saved == out
  }

  ghost predicate HoldsOutputs(v: Option<Value>, outputs: seq<Value>) {
    && v.Some? && v.value.Arr? && |v.value.items| == |outputs|
    && forall i | 0 <= i < |outputs| :: SavedAs(outputs[i], v.value.items[i])
  }

  /** The fields of a written cell, its extra ones apart. */
  ghost predicate WritesAs(c: Cell, v: Value) {
    && Get(v, "cell_type") == Some(Str(match c.cellType case Code => "code" case Markdown => "markdown" case Raw => "raw"))
    && Get(v, "id") == Some(Str(c.id)) && Get(v, "metadata") == Some(c.metadata)
    && Get(v, "source") == Some(Arr(Strings(Lines(c.source))))
    && if c.cellType.Code? then
         && Get(v, "execution_count") == Some(if c.executionCount.Some? then Num(c.executionCount.value) else Null)
         && HoldsOutputs(Get(v, "outputs"), c.outputs)
       else Get(v, "execution_count") == None && Get(v, "outputs") == None
  }

  lemma SavedHolds(outputs: seq<Value>)
    ensures HoldsOutputs(Some(Arr(Saved(outputs))), outputs)
  {
    forall i | 0 <= i < |outputs| ensures SavedAs(outputs[i], Saved(outputs)[i]) {}
  }

  lemma ToJsonWrites(c: Cell)
    ensures c.extra.Keys !! KNOWN ==> WritesAs(c, ToJson(c))
    ensures forall k <- c.extra :: Get(ToJson(c), k) == Some(c.extra[k])
  {
    SavedHolds(c.outputs);
    if c.extra.Keys !! KNOWN { assert forall k <- KNOWN :: k !in c.extra; }
  }

  /** A written cell reads back as what it keeps exactly when none of its extra fields has the name
      of a field a cell has. */
  lemma CellRoundTrip(c: Cell, newId: string)
    ensures FromJson(ToJson(c), newId) == Ok(Kept(c)) <==> c.extra.Keys !! KNOWN
  {
    var v := ToJson(c);
    if c.extra.Keys !! KNOWN {
      WrittenReads(c);
      assert Written(c).Keys <= KNOWN;
      assert v.fields - KNOWN == c.extra;
    } else {
      var k :| k in c.extra && k in KNOWN;
      assert k !in FromJson(v, newId).cell.extra;
    }
  }

  lemma WrittenFields(c: Cell)
    requires c.extra.Keys !! KNOWN
    ensures forall k <- KNOWN :: Get(ToJson(c), k) == Get(Obj(Written(c)), k)
  {
    assert forall k <- KNOWN :: k !in c.extra;
  }

  lemma WrittenReads(c: Cell)
    requires c.extra.Keys !! KNOWN
    ensures var v := ToJson(c);
            && Get(v, "id") == Some(Str(c.id)) && Get(v, "metadata") == Some(c.metadata)
            && Get(v, "cell_type") == Some(Str(TypeName(c.cellType))) && TypeOf(TypeName(c.cellType)) == c.cellType
            && SourceOf(Get(v, "source")) == c.source
            && CountOf(Get(v, "execution_count")) == Kept(c).executionCount
            && Get(v, "outputs") == if c.cellType.Code? then Some(Arr(Saved(c.outputs))) else None
  {
    WrittenFields(c);
    TextsOfStrings(Lines(c.source));
    LinesJoinBack(c.source);
  }

  lemma SavedTwice(outputs: seq<Value>)
    ensures Saved(Saved(outputs)) == Saved(outputs)
  {
    var once := Saved(outputs);
    forall i | 0 <= i < |outputs| ensures Saved(once)[i] == once[i] {
      if once[i].Obj? { assert once[i].fields - {"transient"} == once[i].fields; }
    }
    assert Saved(once) == once;
  }

  lemma KeptTwice(c: Cell)
    ensures ToJson(Kept(c)) == ToJson(c)
  {
    SavedTwice(c.outputs);
  }

  /** Reading and writing any cell again changes nothing more, whatever ids are drawn. */
  lemma ParseThenPrintIsIdempotent(v: Value, fresh1: string, fresh2: string)
    requires v.Obj?
    ensures var once := ToJson(FromJson(v, fresh1).cell);
            once.Obj? && ToJson(FromJson(once, fresh2).cell) == once
  {
    var c := FromJson(v, fresh1).cell;
    CellRoundTrip(c, fresh2);
    KeptTwice(c);
  }

  // ---- the loops ----

  /** from_json, field by field. */
  method ParseCell(v: Value, newId: string) returns (r: Parsed)
    ensures r == FromJson(v, newId)
    ensures if v.Obj? then r.Ok? && ReadsAs(v, newId, r.cell) else r == NotAnObject
  {
    if v.Obj? { FromJsonReads(v, newId); }
    if !v.Obj? {
      return NotAnObject;
    }
    var t, id, outs, meta := Get(v, "cell_type"), Get(v, "id"), Get(v, "outputs"), Get(v, "metadata");
    var cellType := if t.Some? && t.value.Str? then TypeOf(t.value.s) else Code;
    var extra: map<string, Value> := map[];
    var keys := v.fields.Keys;
    while keys != {}
      invariant keys <= v.fields.Keys
      invariant extra == (map k | k in v.fields && k !in keys && k !in KNOWN :: v.fields[k])
      decreases keys
    {
      var k :| k in keys;
      keys := keys - {k};
      if k !in KNOWN {
        extra := extra[k := v.fields[k]];
      }
    }
    assert extra == v.fields - KNOWN;
    r := Ok(Cell(if id.Some? && id.value.Str? then id.value.s else newId, cellType, SourceOf(Get(v, "source")),
                 CountOf(Get(v, "execution_count")), if outs.Some? && outs.value.Arr? then outs.value.items else [],
                 if meta.Some? then meta.value else Obj(map[]), extra));
  }

  /** to_json, field by field. */
  method PrintCell(c: Cell) returns (v: Value)
    ensures v == ToJson(c)
    ensures c.extra.Keys !! KNOWN ==> WritesAs(c, v)
    ensures forall k <- c.extra :: Get(v, k) == Some(c.extra[k])
  {
    ToJsonWrites(c);
    var obj: map<string, Value> := map[];
    obj := obj["cell_type" := Str(TypeName(c.cellType))];
    obj := obj["id" := Str(c.id)];
    obj := obj["metadata" := c.metadata];
    obj := obj["source" := Arr(Strings(Lines(c.source)))];
    if c.cellType.Code? {
      obj := obj["execution_count" := if c.executionCount.Some? then Num(c.executionCount.value) else Null];
      obj := obj["outputs" := Arr(Saved(c.outputs))];
    }
    assert obj == Written(c);
    var keys := c.extra.Keys;
    while keys != {}
      invariant keys <= c.extra.Keys
      invariant obj == Written(c) + map k | k in c.extra && k !in keys :: c.extra[k]
      decreases keys
    {
      var k :| k in keys;
      keys := keys - {k};
      obj := obj[k := c.extra[k]];
    }
    assert (map k | k in c.extra && k !in keys :: c.extra[k]) == c.extra;
    v := Obj(obj);
  }
}
