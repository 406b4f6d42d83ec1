/** JSON values, and the removal of binary slots from them (core/src/widgets.rs: strip_path). */
module Json {

  datatype Option<+T> = None | Some(value: T)

  /** A serde_json value. Object keys have no order here. */
  datatype Value =
    | Null
    | Bool(b: bool)
    | Num(n: int)
    | Float(x: real)
    | Str(s: string)
    | Arr(items: seq<Value>)
    | Obj(fields: map<string, Value>)

  /** `value.get(key)` of an object; None for anything else. */
  function Get(v: Value, key: string): Option<Value> {
    if v.Obj? && key in v.fields then Some(v.fields[key]) else None
  }

  /** `as_str().unwrap_or("")` of an optional value. */
  function StrOf(v: Option<Value>): string {
    if v.Some? && v.value.Str? then v.value.s else ""
  }

  /** One step of a buffer path: a dict key or a 0-based list index. */
  datatype Seg = Name(key: string) | Index(i: nat)

  type Path = seq<Seg>

  /** The value a path leads to. */
  function Follow(v: Value, path: Path): Option<Value>
    decreases |path|
  {
    if path == [] then Some(v)
    else match (v, path[0])
      case (Obj(m), Name(k)) => if k in m then Follow(m[k], path[1..]) else None
      case (Arr(a), Index(i)) => if i < |a| then Follow(a[i], path[1..]) else None
      case _ => None
  }

  /** What is left of the paths that start with `s`, below it. */
  function Tails(paths: set<Path>, s: Seg): set<Path> {
    set p | p in paths && p != [] && p[0] == s :: p[1..]
  }

  /** strip_in: removes the slot one path names. A dict key goes, a list slot becomes null,
      and a path that leads nowhere changes nothing. */
  function StripIn(v: Value, path: Path): Value
    decreases |path|
  {
    if path == [] then v
    else match (v, path[0])
      case (Obj(m), Name(k)) =>
        if k !in m then v
        else if |path| == 1 then Obj(m - {k})
        else Obj(m[k := StripIn(m[k], path[1..])])
      case (Arr(a), Index(i)) =>
        if i >= |a| then v
        else if |path| == 1 then Arr(a[i := Null])
        else Arr(a[i := StripIn(a[i], path[1..])])
      case _ => v
  }

  /** Stripping path after path, in the order given. */
  function StripEach(v: Value, paths: seq<Path>): Value
    decreases |paths|
  {
    if paths == [] then v else StripEach(StripIn(v, paths[0]), paths[1..])
  }

  /** The value with every slot of a set of paths gone at once. */
  function Strip(v: Value, paths: set<Path>): Value
    decreases v
  {
    match v
    case Obj(m) =>
      Obj(map k | k in m && [Name(k)] !in paths :: Strip(m[k], Tails(paths, Name(k))))
    case Arr(a) =>
      Arr(seq(|a|, i requires 0 <= i < |a| =>
        if [Index(i)] in paths then Null else Strip(a[i], Tails(paths, Index(i)))))
    case _ => v
  }

  /** A path's slot holds nothing: the dict key is absent, the list slot is null, or the path
      does not reach a slot at all. */
  predicate SlotEmpty(v: Value, path: Path)
    decreases |path|
  {
    if path == [] then true
    else match (v, path[0])
      case (Obj(m), Name(k)) => k !in m || (|path| > 1 && SlotEmpty(m[k], path[1..]))
      case (Arr(a), Index(i)) =>
        i >= |a| || (if |path| == 1 then a[i] == Null else SlotEmpty(a[i], path[1..]))
      case _ => true
  }

  lemma {:induction false} StripNothing(v: Value)
    ensures Strip(v, {}) == v
    decreases v
  {
    assert forall s :: Tails({}, s) == {};
    match v
    case Obj(m) =>
      forall k | k in m ensures Strip(m[k], {}) == m[k] { StripNothing(m[k]); }
      assert Strip(v, {}).fields == m;
    case Arr(a) =>
      forall i | 0 <= i < |a| ensures Strip(a[i], {}) == a[i] { StripNothing(a[i]); }
      assert Strip(v, {}).items == a;
    case _ =>
  }

  /** Stripping one set of slots and then another is stripping both at once. */
  lemma {:induction false} StripUnion(v: Value, a: set<Path>, b: set<Path>)
    ensures Strip(Strip(v, a), b) == Strip(v, a + b)
    decreases v
  {
    forall s ensures Tails(a + b, s) == Tails(a, s) + Tails(b, s) {}
    match v
    case Obj(m) =>
      forall k | k in m
        ensures Strip(Strip(m[k], Tails(a, Name(k))), Tails(b, Name(k))) == Strip(m[k], Tails(a + b, Name(k)))
      {
        StripUnion(m[k], Tails(a, Name(k)), Tails(b, Name(k)));
      }
      assert Strip(Strip(v, a), b).fields == Strip(v, a + b).fields;
    case Arr(items) =>
      forall i | 0 <= i < |items|
        ensures Strip(Strip(items[i], Tails(a, Index(i))), Tails(b, Index(i))) == Strip(items[i], Tails(a + b, Index(i)))
      {
        StripUnion(items[i], Tails(a, Index(i)), Tails(b, Index(i)));
      }
      assert Strip(Strip(v, a), b).items == Strip(v, a + b).items;
    case _ =>
  }

  lemma TailsOfOne(path: Path)
    requires path != []
    ensures forall s :: Tails({path}, s) == if s == path[0] then {path[1..]} else {}
    ensures forall s :: [s] in {path} <==> |path| == 1 && s == path[0]
  {
    forall s ensures [s] in {path} <==> |path| == 1 && s == path[0] {
      assert [s] == path <==> |path| == 1 && s == path[0];
    }
  }

  lemma {:induction false} StripOneObj(m: map<string, Value>, path: Path)
    requires path != []
    requires |path| > 1 && path[0].Name? && path[0].key in m ==>
               Strip(m[path[0].key], {path[1..]}) == StripIn(m[path[0].key], path[1..])
    ensures Strip(Obj(m), {path}) == StripIn(Obj(m), path)
  {
    TailsOfOne(path);
    forall x | x in m ensures Strip(m[x], {}) == m[x] { StripNothing(m[x]); }
    var r := Strip(Obj(m), {path});
    assert forall k <- m :: k in r.fields <==> [Name(k)] !in {path};
    assert r.fields == StripIn(Obj(m), path).fields;
  }

  lemma {:induction false} StripOneArr(a: seq<Value>, path: Path)
    requires path != []
    requires |path| > 1 && path[0].Index? && path[0].i < |a| ==>
               Strip(a[path[0].i], {path[1..]}) == StripIn(a[path[0].i], path[1..])
    ensures Strip(Arr(a), {path}) == StripIn(Arr(a), path)
  {
    TailsOfOne(path);
    forall x | 0 <= x < |a| ensures Strip(a[x], {}) == a[x] { StripNothing(a[x]); }
    var r := Strip(Arr(a), {path});
    assert forall x | 0 <= x < |a| ::
        r.items[x] == (if [Index(x)] in {path} then Null else Strip(a[x], Tails({path}, Index(x))));
    assert r.items == StripIn(Arr(a), path).items;
  }

  lemma {:induction false} StripOne(v: Value, path: Path)
    requires path != []
    ensures Strip(v, {path}) == StripIn(v, path)
    decreases |path|
  {
    match v
    case Obj(m) =>
      if |path| > 1 && path[0].Name? && path[0].key in m { StripOne(m[path[0].key], path[1..]); }
      StripOneObj(m, path);
    case Arr(a) =>
      if |path| > 1 && path[0].Index? && path[0].i < |a| { StripOne(a[path[0].i], path[1..]); }
      StripOneArr(a, path);
    case _ =>
  }

  /** Slots may be stripped in any order and any number of times: only the set of paths counts. */
  lemma {:induction false} StripEachIsStrip(v: Value, paths: seq<Path>)
    requires [] !in paths
    ensures StripEach(v, paths) == Strip(v, set p <- paths)
    decreases |paths|
  {
    if paths == [] {
      StripNothing(v);
      assert (set p <- paths) == {};
    } else {
      StripOne(v, paths[0]);
      StripEachIsStrip(StripIn(v, paths[0]), paths[1..]);
      StripUnion(v, {paths[0]}, set p <- paths[1..]);
      assert paths == [paths[0]] + paths[1..];
      assert (set p <- paths) == {paths[0]} + (set p <- paths[1..]);
    }
  }

  lemma {:induction false} StripInKeeps(v: Value, path: Path)
    ensures StripIn(v, path) == v <==> SlotEmpty(v, path)
    decreases |path|
  {
    if path != [] {
      match (v, path[0])
      case (Obj(m), Name(k)) =>
        if k in m {
          if |path| > 1 { StripInKeeps(m[k], path[1..]); }
          assert StripIn(v, path) == v ==> k in StripIn(v, path).fields && StripIn(v, path).fields[k] == m[k];
          if |path| > 1 && StripIn(m[k], path[1..]) == m[k] { assert m[k := m[k]] == m; }
        }
      case (Arr(a), Index(i)) =>
        if i < |a| {
          if |path| > 1 { StripInKeeps(a[i], path[1..]); }
          assert StripIn(v, path) == v ==> StripIn(v, path).items[i] == a[i];
          if |path| > 1 && StripIn(a[i], path[1..]) == a[i] { assert a[i := a[i]] == a; }
          if a[i] == Null { assert a[i := Null] == a; }
        }
      case _ =>
    }
  }

  /** A value is unchanged by stripping exactly when every slot named is empty already. */
  lemma {:induction false} StripKeepsEmpty(v: Value, paths: set<Path>)
    requires [] !in paths
    ensures Strip(v, paths) == v <==> forall p <- paths :: SlotEmpty(v, p)
    decreases |paths|
  {
    if paths == {} {
      StripNothing(v);
    } else {
      forall p | p in paths
        ensures Strip(v, paths) == v ==> SlotEmpty(v, p)
      {
        if Strip(v, paths) == v {
          StripUnion(v, paths, {p});
          assert paths + {p} == paths;
          StripOne(v, p);
          StripInKeeps(v, p);
        }
      }
      if forall p <- paths :: SlotEmpty(v, p) {
        var p :| p in paths;
        var rest := paths - {p};
        StripKeepsEmpty(v, rest);
        StripUnion(v, rest, {p});
        assert rest + {p} == paths;
        StripOne(v, p);
        StripInKeeps(v, p);
      }
    }
  }
}
