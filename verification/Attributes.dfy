/** A model's attributes: a state object with the binary values taken out, and the buffers that
    hold them (core/src/widgets.rs: merge_update, strip_path, attr_of, same_pairs). */
module Attributes {
  import opened Json
  import opened Sets

  type Bytes = seq<int>

  /** A buffer, below the attribute its path starts with. */
  datatype Buf = Buf(path: Path, bytes: Bytes)

  /** One attribute: its JSON value, if it has one, and the buffers under it. */
  datatype Entry = Entry(value: Option<Value>, bufs: set<Buf>)

  type Attrs = map<string, Entry>

  function Paths(bufs: set<Buf>): set<Path> {
    set b <- bufs :: b.path
  }

  /** The JSON part of an attribute with the slots of its buffers empty. A buffer at the empty
      path is the whole attribute. */
  function Emptied(value: Option<Value>, paths: set<Path>): Option<Value> {
    if value.None? || [] in paths then None else Some(Strip(value.value, paths))
  }

  function Norm(e: Entry): Entry {
    Entry(Emptied(e.value, Paths(e.bufs)), e.bufs)
  }

  /** The buffer is the value: its slot in the JSON part is absent, null or out of reach. */
  predicate Stripped(e: Entry) {
    Norm(e) == e
  }

  /** merge_update, attribute by attribute: a touched one is replaced as a whole. */
  function Merge(attrs: Attrs, update: Attrs): Attrs {
    attrs + map k <- update :: Norm(update[k])
  }

  function ValueOf(attrs: Attrs, key: string): Option<Value> {
    if key in attrs then attrs[key].value else None
  }

  lemma NormIdempotent(e: Entry)
    ensures Norm(Norm(e)) == Norm(e)
  {
    if e.value.Some? {
      StripUnion(e.value.value, Paths(e.bufs), Paths(e.bufs));
      assert Paths(e.bufs) + Paths(e.bufs) == Paths(e.bufs);
    }
  }

  /** Stripped, slot by slot. */
  lemma StrippedIffSlotsEmpty(e: Entry)
    ensures Stripped(e) <==>
            forall b <- e.bufs :: if b.path == [] then e.value.None? else e.value.Some? ==> SlotEmpty(e.value.value, b.path)
  {
    if e.value.Some? {
      if [] in Paths(e.bufs) {
        assert !Stripped(e);
      } else {
        StripKeepsEmpty(e.value.value, Paths(e.bufs));
        assert forall b <- e.bufs :: b.path in Paths(e.bufs);
      }
    }
  }

  /** Two updates applied in turn are their merge applied at once, so held changes may be joined. */
  lemma MergeComposes(s: Attrs, u1: Attrs, u2: Attrs)
    ensures Merge(Merge(s, u1), u2) == Merge(s, Merge(u1, u2))
  {
    var joined := Merge(u1, u2);
    var left, right := Merge(Merge(s, u1), u2), Merge(s, joined);
    forall k
      ensures k in left <==> k in right
      ensures k in left ==> left[k] == right[k]
    {
      if k in u2 {
        NormIdempotent(u2[k]);
      }
    }
    assert left == right;
  }

  lemma MergeKeepsStripped(s: Attrs, u: Attrs)
    requires forall k <- s :: Stripped(s[k])
    ensures forall k <- Merge(s, u) :: Stripped(Merge(s, u)[k])
  {
    forall k | k in u ensures Stripped(Norm(u[k])) { NormIdempotent(u[k]); }
  }

  // ---- the lists the store keeps ----

  /** A buffer with its full path, which starts with a state key. */
  datatype Pair = Pair(path: Path, bytes: Bytes)

  predicate ValidPath(path: Path) {
    path != [] && path[0].Name?
  }

  predicate ValidPairs(pairs: seq<Pair>) {
    forall p <- pairs :: ValidPath(p.path)
  }

  predicate Under(p: Pair, key: string) {
    p.path != [] && p.path[0] == Name(key)
  }

  function BufsUnder(pairs: seq<Pair>, key: string): set<Buf> {
    set p | p in pairs && Under(p, key) :: Buf(p.path[1..], p.bytes)
  }

  function HeadKeys(pairs: seq<Pair>): set<string> {
    set p | p in pairs && ValidPath(p.path) :: p.path[0].key
  }

  function Lookup(state: map<string, Value>, key: string): Option<Value> {
    if key in state then Some(state[key]) else None
  }

  /** The attributes a state object and a list of buffers stand for. */
  function AttrsOf(state: map<string, Value>, pairs: seq<Pair>): Attrs {
    map k <- state.Keys + HeadKeys(pairs) :: Entry(Lookup(state, k), BufsUnder(pairs, k))
  }

  /** buffers.retain: the buffers of every attribute that is not touched. */
  function Retain(pairs: seq<Pair>, touched: set<string>): (r: seq<Pair>)
    ensures forall p :: p in r <==> p in pairs && !(ValidPath(p.path) && p.path[0].key in touched)
  {
    if pairs == [] then []
    else
      var last := pairs[|pairs| - 1];
      Retain(pairs[..|pairs| - 1], touched) +
      if ValidPath(last.path) && last.path[0].key in touched then [] else [last]
  }

  lemma BufsUnderSnoc(pairs: seq<Pair>, n: nat, key: string)
    requires n < |pairs|
    ensures BufsUnder(pairs[..n + 1], key) ==
            BufsUnder(pairs[..n], key) + (if Under(pairs[n], key) then {Buf(pairs[n].path[1..], pairs[n].bytes)} else {})
  {
    assert pairs[..n + 1] == pairs[..n] + [pairs[n]];
  }

  lemma EmptiedMore(value: Option<Value>, paths: set<Path>, path: Path)
    ensures Emptied(Emptied(value, paths), {path}) == Emptied(value, paths + {path})
  {
    if value.Some? { StripUnion(value.value, paths, {path}); }
  }

  lemma EmptiedSnoc(value: Option<Value>, pairs: seq<Pair>, n: nat, key: string)
    requires n < |pairs| && ValidPath(pairs[n].path)
    ensures Emptied(value, Paths(BufsUnder(pairs[..n + 1], key))) ==
            var before := Emptied(value, Paths(BufsUnder(pairs[..n], key)));
            if key == pairs[n].path[0].key then Emptied(before, {pairs[n].path[1..]}) else before
  {
    BufsUnderSnoc(pairs, n, key);
    if Under(pairs[n], key) {
      var before := Paths(BufsUnder(pairs[..n], key));
      EmptiedMore(value, before, pairs[n].path[1..]);
      assert Paths(BufsUnder(pairs[..n + 1], key)) == before + {pairs[n].path[1..]};
    } else {
      assert BufsUnder(pairs[..n + 1], key) == BufsUnder(pairs[..n], key);
    }
  }

  function Touched(update: map<string, Value>, pairs: seq<Pair>): set<string> {
    update.Keys + HeadKeys(pairs)
  }

  lemma BufsUnderRetained(buffers: seq<Pair>, update: map<string, Value>, pairs: seq<Pair>, key: string)
    requires ValidPairs(pairs)
    ensures BufsUnder(Retain(buffers, Touched(update, pairs)) + pairs, key) ==
            if key in Touched(update, pairs) then BufsUnder(pairs, key) else BufsUnder(buffers, key)
  {
    var kept := Retain(buffers, Touched(update, pairs));
    assert forall p :: p in kept + pairs <==> p in kept || p in pairs;
    if key !in Touched(update, pairs) {
      assert forall p :: p in pairs ==> !Under(p, key);
      assert forall p :: p in kept && Under(p, key) <==> p in buffers && Under(p, key);
    } else {
      assert forall p :: p in kept ==> !Under(p, key);
    }
  }

  lemma EmptiedByNone(value: Option<Value>)
    ensures Emptied(value, {}) == value
  {
    if value.Some? { StripNothing(value.value); }
  }

  lemma MergedKey(state: map<string, Value>, buffers: seq<Pair>, update: map<string, Value>, pairs: seq<Pair>,
                  stripped: map<string, Value>, k: string)
    requires ValidPairs(pairs)
    requires Lookup(stripped, k) == Emptied(Lookup((state - Touched(update, pairs)) + update, k), Paths(BufsUnder(pairs, k)))
    ensures k in stripped && k !in Touched(update, pairs) <==> k in state && k !in Touched(update, pairs)
    ensures k !in Touched(update, pairs) ==> Lookup(stripped, k) == Lookup(state, k)
    ensures k in Touched(update, pairs) ==>
              Lookup(stripped, k) == Emptied(Lookup(update, k), Paths(BufsUnder(pairs, k)))
    ensures BufsUnder(Retain(buffers, Touched(update, pairs)) + pairs, k) ==
            if k in Touched(update, pairs) then BufsUnder(pairs, k) else BufsUnder(buffers, k)
  {
    BufsUnderRetained(buffers, update, pairs, k);
    assert k in stripped <==> Lookup(stripped, k).Some?;
    if k !in Touched(update, pairs) {
      assert BufsUnder(pairs, k) == {} by { assert forall p :: p in pairs ==> !Under(p, k); }
      assert Paths({}) == {};
      EmptiedByNone(Lookup(state, k));
    }
  }

  lemma HeadKeysRetained(buffers: seq<Pair>, update: map<string, Value>, pairs: seq<Pair>)
    ensures HeadKeys(Retain(buffers, Touched(update, pairs)) + pairs) ==
            (HeadKeys(buffers) - Touched(update, pairs)) + HeadKeys(pairs)
  {
    var kept := Retain(buffers, Touched(update, pairs));
    assert forall p :: p in kept + pairs <==> p in kept || p in pairs;
  }

  lemma MergedEntry(state: map<string, Value>, buffers: seq<Pair>, update: map<string, Value>, pairs: seq<Pair>,
                    stripped: map<string, Value>, k: string)
    requires ValidPairs(pairs)
    requires Lookup(stripped, k) == Emptied(Lookup((state - Touched(update, pairs)) + update, k), Paths(BufsUnder(pairs, k)))
    ensures var got := AttrsOf(stripped, Retain(buffers, Touched(update, pairs)) + pairs);
            var attrs, changes := AttrsOf(state, buffers), AttrsOf(update, pairs);
            && (k in got <==> k in attrs || k in changes)
            && (k in changes ==> got[k] == Norm(changes[k]))
            && (k in attrs && k !in changes ==> got[k] == attrs[k])
  {
    MergedKey(state, buffers, update, pairs, stripped, k);
    HeadKeysRetained(buffers, update, pairs);
  }

  lemma MergedAttrs(state: map<string, Value>, buffers: seq<Pair>, update: map<string, Value>, pairs: seq<Pair>,
                    stripped: map<string, Value>)
    requires ValidPairs(pairs)
    requires forall k :: Lookup(stripped, k) ==
                         Emptied(Lookup((state - Touched(update, pairs)) + update, k), Paths(BufsUnder(pairs, k)))
    ensures AttrsOf(stripped, Retain(buffers, Touched(update, pairs)) + pairs) ==
            Merge(AttrsOf(state, buffers), AttrsOf(update, pairs))
  {
    var got := AttrsOf(stripped, Retain(buffers, Touched(update, pairs)) + pairs);
    var attrs, changes := AttrsOf(state, buffers), AttrsOf(update, pairs);
    forall k
      ensures k in got <==> k in attrs || k in changes
      ensures k in changes ==> got[k] == Norm(changes[k])
      ensures k in attrs && k !in changes ==> got[k] == attrs[k]
    {
      MergedEntry(state, buffers, update, pairs, stripped, k);
    }
    AttrsByKey(got, attrs, changes);
  }

  lemma AttrsByKey(got: Attrs, attrs: Attrs, update: Attrs)
    requires got.Keys == attrs.Keys + update.Keys
    requires forall k <- update :: got[k] == Norm(update[k])
    requires forall k | k in attrs && k !in update :: got[k] == attrs[k]
    ensures got == Merge(attrs, update)
  {
  }

  /** The state object and the buffers of a model, changed in place. */
  class Attributes {
    var state: map<string, Value>
    var buffers: seq<Pair>

    constructor ()
      ensures state == map[] && buffers == []
    {
      state, buffers := map[], [];
    }

    ghost function Contents(): Attrs
      reads this
    {
      AttrsOf(state, buffers)
    }

    /** strip_path */
    method StripPath(path: Path)
      requires ValidPath(path)
      modifies this`state
      ensures forall k :: Lookup(state, k) ==
                          if k == path[0].key then Emptied(Lookup(old(state), k), {path[1..]}) else Lookup(old(state), k)
    {
      var key := path[0].key;
      if |path| == 1 {
        assert path[1..] == [];
        state := state - {key};
      } else if key in state {
        StripOne(state[key], path[1..]);
        state := state[key := StripIn(state[key], path[1..])];
      }
    }

    method StripSlots(pairs: seq<Pair>)
      requires ValidPairs(pairs)
      modifies this`state
      ensures forall k :: Lookup(state, k) == Emptied(Lookup(old(state), k), Paths(BufsUnder(pairs, k)))
    {
      forall k ensures Emptied(Lookup(state, k), {}) == Lookup(state, k) {
        if k in state { StripNothing(state[k]); }
      }
      assert forall k :: Paths(BufsUnder([], k)) == {};
      assert pairs[..0] == [];
      var i := 0;
      while i < |pairs|
        invariant 0 <= i <= |pairs|
        invariant forall k :: Lookup(state, k) == Emptied(Lookup(old(state), k), Paths(BufsUnder(pairs[..i], k)))
      {
        StripPath(pairs[i].path);
        forall k ensures Lookup(state, k) == Emptied(Lookup(old(state), k), Paths(BufsUnder(pairs[..i + 1], k))) {
          EmptiedSnoc(Lookup(old(state), k), pairs, i, k);
        }
        i := i + 1;
      }
      assert pairs[..i] == pairs;
    }

    /** A touched key takes the update's value, or goes when the update has none; then every
        buffer that came leaves its slot empty, and takes the place of the old ones. */
    method MergeUpdate(update: map<string, Value>, pairs: seq<Pair>)
      requires ValidPairs(pairs)
      modifies this
      ensures Contents() == Merge(old(Contents()), AttrsOf(update, pairs))
      ensures NoRepeats(old(buffers)) && NoRepeats(pairs) ==> NoRepeats(buffers)
    {
      var touched := Touched(update, pairs);
      state := (state - touched) + update;
      StripSlots(pairs);
      buffers := Retain(buffers, touched) + pairs;
      MergedAttrs(old(state), old(buffers), update, pairs, state);
      if NoRepeats(old(buffers)) && NoRepeats(pairs) { MergeKeepsNoRepeats(old(buffers), update, pairs); }
    }
  }

  /** same_pairs: the same number of buffers, and every one of the first in the second. */
  predicate SamePairs(a: seq<Pair>, b: seq<Pair>) {
    |a| == |b| && forall p <- a :: p in b
  }

  predicate NoRepeats<T(==)>(s: seq<T>) {
    forall i, j | 0 <= i < j < |s| :: s[i] != s[j]
  }

  function Elems<T>(s: seq<T>): set<T> {
    set x <- s
  }

  lemma {:induction false} CardOfNoRepeats<T>(s: seq<T>)
    requires NoRepeats(s)
    ensures |Elems(s)| == |s|
  {
    if s != [] {
      var init := s[..|s| - 1];
      CardOfNoRepeats(init);
      assert s == init + [s[|s| - 1]];
      assert Elems(s) == Elems(init) + {s[|s| - 1]};
    }
  }

  lemma SubsetSameSize<T>(a: set<T>, b: set<T>)
    requires a <= b && |a| == |b|
    ensures a == b
  {
    assert b == a + (b - a);
    assert |b| == |a| + |b - a|;
  }

  /** The comparison of two buffer lists is the comparison of what they hold, as long as the first
      does not repeat a buffer. */
  lemma SamePairsIsEquality(a: seq<Pair>, b: seq<Pair>)
    requires NoRepeats(a)
    ensures SamePairs(a, b) <==> |a| == |b| && Elems(a) == Elems(b)
  {
    CardOfNoRepeats(a);
    if SamePairs(a, b) {
      CardAtMost(b);
      assert Elems(a) <= Elems(b);
      SubsetSize(Elems(a), Elems(b));
      SubsetSameSize(Elems(a), Elems(b));
    }
    if Elems(a) == Elems(b) {
      forall p | p in a ensures p in b {
        assert p in Elems(a);
      }
    }
  }

  lemma {:induction false} CardAtMost<T>(s: seq<T>)
    ensures |Elems(s)| <= |s|
  {
    if s != [] {
      var init := s[..|s| - 1];
      CardAtMost(init);
      assert s == init + [s[|s| - 1]];
      assert Elems(s) == Elems(init) + {s[|s| - 1]};
    }
  }

  /** With a repeat in the first list the comparison misses a buffer of the second. */
  lemma SamePairsMissesRepeats(a: seq<Pair>, i: nat, j: nat, y: Pair)
    requires i < j < |a| && a[i] == a[j] && y !in a
    ensures SamePairs(a, a[j := y]) && Elems(a[j := y]) != Elems(a)
  {
    var b := a[j := y];
    forall p | p in a ensures p in b {
      var k :| 0 <= k < |a| && a[k] == p;
      assert b[if k == j then i else k] == p;
    }
    assert b[j] == y && y in Elems(b) && y !in Elems(a);
  }

  function Longest(a: seq<Pair>): (n: nat)
    ensures forall p <- a :: |p.bytes| <= n
  {
    if a == [] then 0
    else
      var n, last := Longest(a[..|a| - 1]), a[|a| - 1];
      assert forall p <- a :: p == last || p in a[..|a| - 1];
      if |last.bytes| > n then |last.bytes| else n
  }

  /** The comparison can be trusted on a first list exactly when that list repeats no buffer. */
  lemma SamePairsExactly(a: seq<Pair>)
    ensures NoRepeats(a) <==> forall b :: SamePairs(a, b) ==> Elems(a) == Elems(b)
  {
    if NoRepeats(a) {
      forall b | SamePairs(a, b) ensures Elems(a) == Elems(b) { SamePairsIsEquality(a, b); }
    } else {
      var i, j :| 0 <= i < j < |a| && a[i] == a[j];
      var y := Pair([Name("")], seq(Longest(a) + 1, _ => 0));
      SamePairsMissesRepeats(a, i, j, y);
    }
  }

  // ---- one attribute out of the lists ----

  /** attr_of: the buffers under a key, in the order of the list. */
  function PairsUnder(pairs: seq<Pair>, key: string): (r: seq<Pair>)
    ensures forall p :: p in r <==> p in pairs && Under(p, key)
    ensures NoRepeats(pairs) ==> NoRepeats(r)
  {
    if pairs == [] then []
    else
      var init, last := pairs[..|pairs| - 1], pairs[|pairs| - 1];
      assert NoRepeats(pairs) ==> last !in init;
      PairsUnder(init, key) + if Under(last, key) then [last] else []
  }

  /** The buffers under one attribute, put under another. */
  function Moved(pairs: seq<Pair>, key: string): seq<Pair>
    requires ValidPairs(pairs)
  {
    seq(|pairs|, i requires 0 <= i < |pairs| =>
      assert pairs[i] in pairs; Pair(pairs[i].path[0 := Name(key)], pairs[i].bytes))
  }

  lemma MovedHolds(pairs: seq<Pair>, from: string, to: string)
    requires ValidPairs(pairs) && forall p <- pairs :: Under(p, from)
    ensures forall p <- Moved(pairs, to) :: Under(p, to)
    ensures BufsUnder(Moved(pairs, to), to) == BufsUnder(pairs, from)
  {
    var moved := Moved(pairs, to);
    forall b ensures b in BufsUnder(moved, to) <==> b in BufsUnder(pairs, from) {
      if b in BufsUnder(moved, to) {
        var i :| 0 <= i < |moved| && Buf(moved[i].path[1..], moved[i].bytes) == b;
        assert pairs[i] in pairs && Buf(pairs[i].path[1..], pairs[i].bytes) == b;
      }
      if b in BufsUnder(pairs, from) {
        var i :| 0 <= i < |pairs| && Buf(pairs[i].path[1..], pairs[i].bytes) == b;
        assert moved[i] in moved && Buf(moved[i].path[1..], moved[i].bytes) == b;
      }
    }
  }

  lemma PathUnder(path: Path, key: string)
    requires path != [] && path[0] == Name(key)
    ensures path == [Name(key)] + path[1..]
  {
  }

  /** Lists under one key hold the same when their buffers below the key are the same. */
  lemma ElemsIffBufs(a: seq<Pair>, b: seq<Pair>, key: string)
    requires (forall p <- a :: Under(p, key)) && forall p <- b :: Under(p, key)
    ensures Elems(a) == Elems(b) <==> BufsUnder(a, key) == BufsUnder(b, key)
  {
    if BufsUnder(a, key) == BufsUnder(b, key) {
      SameBufsSameElems(a, b, key);
      SameBufsSameElems(b, a, key);
    }
    if Elems(a) == Elems(b) {
      assert forall p :: p in a <==> p in Elems(a);
      assert forall p :: p in b <==> p in Elems(b);
    }
  }

  lemma SameBufsSameElems(a: seq<Pair>, b: seq<Pair>, key: string)
    requires (forall p <- a :: Under(p, key)) && (forall p <- b :: Under(p, key)) && BufsUnder(a, key) <= BufsUnder(b, key)
    ensures Elems(a) <= Elems(b)
  {
    forall p | p in Elems(a) ensures p in Elems(b) {
      assert Buf(p.path[1..], p.bytes) in BufsUnder(a, key);
      var q :| q in b && Under(q, key) && Buf(q.path[1..], q.bytes) == Buf(p.path[1..], p.bytes);
      PathUnder(p.path, key);
      PathUnder(q.path, key);
      assert p == q;
    }
  }

  lemma PairsUnderHold(pairs: seq<Pair>, key: string)
    ensures BufsUnder(PairsUnder(pairs, key), key) == BufsUnder(pairs, key)
  {
  }

  lemma {:induction false} CountOfBufs(pairs: seq<Pair>, key: string)
    requires NoRepeats(pairs) && forall p <- pairs :: Under(p, key)
    ensures |BufsUnder(pairs, key)| == |pairs|
  {
    if pairs != [] {
      var init, last := pairs[..|pairs| - 1], pairs[|pairs| - 1];
      CountOfBufs(init, key);
      BufsUnderSnoc(pairs, |init|, key);
      assert pairs[..|init| + 1] == pairs;
      PathUnder(last.path, key);
      forall q | q in init && Under(q, key) ensures Buf(q.path[1..], q.bytes) != Buf(last.path[1..], last.bytes) {
        PathUnder(q.path, key);
        assert q != last;
      }
    }
  }

  /** What copy_attr and echo_changes compare by lists, with the second put under the key of the
      first, is whether the entries of the two attributes are the same, when neither repeats a
      buffer there. */
  lemma SamePairsIsSameEntry(buffers: seq<Pair>, key: string, others: seq<Pair>, from: string)
    requires NoRepeats(PairsUnder(buffers, key)) && NoRepeats(PairsUnder(others, from))
    ensures SamePairs(PairsUnder(buffers, key), Moved(PairsUnder(others, from), key)) <==>
            BufsUnder(buffers, key) == BufsUnder(others, from)
  {
    var a, b := PairsUnder(buffers, key), PairsUnder(others, from);
    var moved := Moved(b, key);
    PairsUnderHold(buffers, key);
    PairsUnderHold(others, from);
    MovedHolds(b, from, key);
    SamePairsIsEquality(a, moved);
    ElemsIffBufs(a, moved, key);
    CountOfBufs(a, key);
    CountOfBufs(b, from);
  }

  /** merge_update repeats no buffer that the lists it is given do not repeat. */
  lemma {:induction false} MergeKeepsNoRepeats(buffers: seq<Pair>, update: map<string, Value>, pairs: seq<Pair>)
    requires ValidPairs(pairs) && NoRepeats(buffers) && NoRepeats(pairs)
    ensures NoRepeats(Retain(buffers, Touched(update, pairs)) + pairs)
  {
    RetainNoRepeats(buffers, Touched(update, pairs));
    var kept := Retain(buffers, Touched(update, pairs));
    forall i, j | 0 <= i < |kept| && 0 <= j < |pairs| ensures kept[i] != pairs[j] {
      assert kept[i] in kept && pairs[j] in pairs;
    }
  }

  lemma {:induction false} RetainNoRepeats(pairs: seq<Pair>, touched: set<string>)
    requires NoRepeats(pairs)
    ensures NoRepeats(Retain(pairs, touched))
  {
    if pairs != [] {
      RetainNoRepeats(pairs[..|pairs| - 1], touched);
      assert pairs[|pairs| - 1] !in pairs[..|pairs| - 1];
    }
  }
}
