/** Removing everything in a dir without recursion and with a bounded number of open dirs
    (core/src/connfile.rs: clear_tree, remove_subtree, move_up). */
module TreeRemoval {
  import opened Json

  /** The most dirs a removal keeps open below the dir it clears. */
  const REMOVE_MAX_OPEN: nat := 32
  const REMOVE_MAX_PASSES: nat := 0x10_0000

  /** An entry's name; `Moved` are the names drawn for dirs that are moved up. */
  datatype Name = Listed(n: nat) | Moved(n: nat)

  /** A tree as a removal finds it. A stuck entry cannot be removed: a file whose unlink fails, or
      a dir that cannot be opened, with whatever is in it. */
  datatype Node =
    | File
    | Stuck(id: nat, isDir: bool)
    | Dir(kids: Kids)

  datatype Kids = Nil | Cons(name: Name, node: Node, rest: Kids)

  predicate IsDir(node: Node) {
    node.Dir? || (node.Stuck? && node.isDir)
  }

  /** The dirs on the longest way down. */
  function Height(node: Node): nat {
    match node
    case File => 0
    case Stuck(_, isDir) => if isDir then 1 else 0
    case Dir(kids) => 1 + HeightOf(kids)
  }

  function HeightOf(kids: Kids): nat {
    match kids
    case Nil => 0
    case Cons(_, node, rest) => Max(Height(node), HeightOf(rest))
  }

  function Max(a: nat, b: nat): nat {
    if a < b then b else a
  }

  /** The stuck entries of a tree. */
  function Stucks(node: Node): multiset<nat> {
    match node
    case File => multiset{}
    case Stuck(id, _) => multiset{id}
    case Dir(kids) => StucksOf(kids)
  }

  function StucksOf(kids: Kids): multiset<nat> {
    match kids
    case Nil => multiset{}
    case Cons(_, node, rest) => Stucks(node) + StucksOf(rest)
  }

  function Size(node: Node): nat {
    match node
    case Dir(kids) => 1 + SizeOf(kids)
    case _ => 1
  }

  function SizeOf(kids: Kids): nat {
    match kids
    case Nil => 0
    case Cons(_, node, rest) => Size(node) + SizeOf(rest)
  }

  /** Only stuck entries and the dirs above them. */
  predicate Bare(node: Node) {
    match node
    case File => false
    case Stuck(_, _) => true
    case Dir(kids) => kids.Cons? && AllBare(kids)
  }

  predicate AllBare(kids: Kids) {
    match kids
    case Nil => true
    case Cons(_, node, rest) => Bare(node) && AllBare(rest)
  }

  // ---- the stack ----

  /** An open dir: the entries still to remove, and those that stayed. */
  datatype Frame = Frame(name: Name, todo: Kids, left: Kids, failed: bool)

  predicate FrameOk(f: Frame) {
    (f.failed <==> f.left.Cons?) && AllBare(f.left)
  }

  function StuckIn(stack: seq<Frame>): multiset<nat> {
    if stack == [] then multiset{}
    else
      var f := stack[|stack| - 1];
      StuckIn(stack[..|stack| - 1]) + StucksOf(f.todo) + StucksOf(f.left)
  }

  function StuckLeft(stack: seq<Frame>): multiset<nat> {
    if stack == [] then multiset{} else StuckLeft(stack[..|stack| - 1]) + StucksOf(stack[|stack| - 1].left)
  }

  function SizeIn(stack: seq<Frame>): nat {
    if stack == [] then 0 else SizeIn(stack[..|stack| - 1]) + SizeOf(stack[|stack| - 1].todo)
  }

  /** No entry still to remove reaches deeper than `h` dirs. */
  predicate Within(stack: seq<Frame>, h: nat) {
    forall i | 0 <= i < |stack| :: i + 1 + HeightOf(stack[i].todo) <= h
  }

  /** One of them reaches that deep. */
  predicate Reaches(stack: seq<Frame>, h: nat) {
    exists i | 0 <= i < |stack| :: i + 1 + HeightOf(stack[i].todo) == h
  }

  // ---- the dir that is cleared ----

  type Top = map<Name, Node>

  function Only(top: Top, names: set<Name>): Top {
    map n | n in top && n in names :: top[n]
  }

  ghost function StucksIn(top: Top): multiset<nat>
    decreases |top|
  {
    if top == map[] then multiset{}
    else
      var n :| n in top;
      Smaller(top, n);
      Stucks(top[n]) + StucksIn(top - {n})
  }

  lemma Smaller(top: Top, n: Name)
    requires n in top
    ensures |top - {n}| < |top|
  {
    assert (top - {n}).Keys == top.Keys - {n};
    assert |(top - {n}).Keys| == |top - {n}| && |top.Keys| == |top|;
  }

  lemma StucksPicks(top: Top) returns (x: Name)
    requires top != map[]
    ensures x in top && StucksIn(top) == Stucks(top[x]) + StucksIn(top - {x})
  {
    x :| x in top && StucksIn(top) == Stucks(top[x]) + StucksIn(top - {x});
  }

  lemma WithoutBoth(top: Top, x: Name, n: Name)
    requires x in top && n in top && x != n
    ensures (top - {x}) - {n} == (top - {n}) - {x}
    ensures n in top - {x} && (top - {x})[n] == top[n] && x in top - {n} && (top - {n})[x] == top[x]
  {
  }

  lemma {:induction false} StucksWithout(top: Top, n: Name)
    requires n in top
    ensures StucksIn(top) == Stucks(top[n]) + StucksIn(top - {n})
    decreases |top|
  {
    var x := StucksPicks(top);
    if x != n {
      Smaller(top, x);
      Smaller(top, n);
      WithoutBoth(top, x, n);
      StucksWithout(top - {x}, n);
      StucksWithout(top - {n}, x);
    }
  }

  lemma StucksWith(top: Top, n: Name, node: Node)
    requires n !in top
    ensures StucksIn(top[n := node]) == StucksIn(top) + Stucks(node)
  {
    StucksWithout(top[n := node], n);
    assert top[n := node] - {n} == top;
  }

  lemma JoinedBut(a: Top, b: Top, n: Name)
    requires a.Keys !! b.Keys && n in b
    ensures a.Keys !! (b - {n}).Keys && n !in a + (b - {n})
    ensures a + b == (a + (b - {n}))[n := b[n]]
  {
  }

  lemma JoinedNothing(a: Top)
    ensures a + map[] == a && StucksIn(map[]) == multiset{}
  {
  }

  lemma {:induction false} StucksJoined(a: Top, b: Top)
    requires a.Keys !! b.Keys
    ensures StucksIn(a + b) == StucksIn(a) + StucksIn(b)
    decreases |b|, 1
  {
    if b == map[] {
      JoinedNothing(a);
    } else {
      var n :| n in b;
      StucksJoinedBut(a, b, n);
    }
  }

  lemma {:induction false} StucksJoinedBut(a: Top, b: Top, n: Name)
    requires a.Keys !! b.Keys && n in b
    ensures StucksIn(a + b) == StucksIn(a) + StucksIn(b)
    decreases |b|, 0
  {
    var less := b - {n};
    Smaller(b, n);
    JoinedBut(a, b, n);
    StucksJoined(a, less);
    StucksWithout(b, n);
    StucksWith(a + less, n, b[n]);
  }

  ghost predicate DrawnBelow(top: Top, m: nat) {
    forall n <- top :: n.Moved? ==> n.n < m
  }

  lemma {:induction false} SomeNameFree(top: Top) returns (m: nat)
    ensures DrawnBelow(top, m)
    decreases |top|
  {
    if top == map[] {
      m := 0;
    } else {
      var n :| n in top;
      Smaller(top, n);
      m := SomeNameFree(top - {n});
      assert forall x <- top :: x == n || x in top - {n};
      m := m + n.n + 1;
    }
  }

  lemma FreshName(top: Top)
    ensures exists n: nat :: Moved(n) !in top
  {
    var m := SomeNameFree(top);
    assert Moved(m) !in top;
  }

  // ---- what the loop keeps ----

  /** The dirs moved up out of an entry `h` dirs high. */
  predicate AddedOk(added: Top, h: nat) {
    forall n <- added :: n.Moved? && 1 <= Height(added[n]) && REMOVE_MAX_OPEN + Height(added[n]) <= h
  }

  predicate Deepest(added: Top, h: nat) {
    exists n <- added :: REMOVE_MAX_OPEN + Height(added[n]) == h
  }

  predicate Frames(stack: seq<Frame>) {
    |stack| <= REMOVE_MAX_OPEN && forall i | 0 <= i < |stack| :: FrameOk(stack[i])
  }

  predicate Depths(stack: seq<Frame>, added: Top, h: nat) {
    Within(stack, h) && AddedOk(added, h) && (h > REMOVE_MAX_OPEN ==> Reaches(stack, h) || Deepest(added, h))
  }

  lemma FrameSums(stack: seq<Frame>, f: Frame)
    ensures StuckIn(stack + [f]) == StuckIn(stack) + StucksOf(f.todo) + StucksOf(f.left)
    ensures StuckLeft(stack + [f]) == StuckLeft(stack) + StucksOf(f.left)
    ensures SizeIn(stack + [f]) == SizeIn(stack) + SizeOf(f.todo)
  {
    assert (stack + [f])[..|stack|] == stack;
  }

  function Init(stack: seq<Frame>): seq<Frame>
    requires stack != []
  {
    stack[..|stack| - 1]
  }

  function Last(stack: seq<Frame>): Frame
    requires stack != []
  {
    stack[|stack| - 1]
  }

  /** The next entry was removed, or moved away. */
  function Gone(stack: seq<Frame>): seq<Frame>
    requires stack != [] && Last(stack).todo.Cons?
  {
    Init(stack) + [Last(stack).(todo := Last(stack).todo.rest)]
  }

  /** The next entry stays. */
  function Stays(stack: seq<Frame>): seq<Frame>
    requires stack != [] && Last(stack).todo.Cons?
  {
    var f := Last(stack);
    Init(stack) + [f.(todo := f.todo.rest, left := Cons(f.todo.name, f.todo.node, f.left), failed := true)]
  }

  /** The next entry is a dir and is opened. */
  function Opens(stack: seq<Frame>): seq<Frame>
    requires stack != [] && Last(stack).todo.Cons? && Last(stack).todo.node.Dir?
  {
    Gone(stack) + [Frame(Last(stack).todo.name, Last(stack).todo.node.kids, Nil, false)]
  }

  /** Every entry of the last dir was handled: it is removed if nothing in it stayed. */
  function Closes(stack: seq<Frame>): seq<Frame>
    requires |stack| > 1
  {
    Init(Init(stack)) + [Above(Last(Init(stack)), Last(stack))]
  }

  lemma LastSums(stack: seq<Frame>)
    requires stack != []
    ensures stack == Init(stack) + [Last(stack)]
    ensures StuckIn(stack) == StuckIn(Init(stack)) + StucksOf(Last(stack).todo) + StucksOf(Last(stack).left)
    ensures StuckLeft(stack) == StuckLeft(Init(stack)) + StucksOf(Last(stack).left)
    ensures SizeIn(stack) == SizeIn(Init(stack)) + SizeOf(Last(stack).todo)
  {
  }

  lemma GoneSums(stack: seq<Frame>)
    requires stack != [] && Last(stack).todo.Cons?
    ensures StuckIn(stack) == StuckIn(Gone(stack)) + Stucks(Last(stack).todo.node)
    ensures StuckLeft(Gone(stack)) == StuckLeft(stack)
    ensures SizeIn(Gone(stack)) < SizeIn(stack)
  {
    LastSums(stack);
    FrameSums(Init(stack), Last(stack).(todo := Last(stack).todo.rest));
  }

  lemma Regrouped(a: multiset<nat>, b: multiset<nat>, c: multiset<nat>, d: multiset<nat>)
    ensures a + c + (b + d) == a + (b + c) + d
  {
  }

  lemma StaysSums(stack: seq<Frame>)
    requires stack != [] && Last(stack).todo.Cons?
    ensures StuckIn(Stays(stack)) == StuckIn(stack)
    ensures StuckLeft(Stays(stack)) == StuckLeft(stack) + Stucks(Last(stack).todo.node)
    ensures SizeIn(Stays(stack)) < SizeIn(stack)
  {
    var f := Last(stack);
    LastSums(stack);
    var g := f.(todo := f.todo.rest, left := Cons(f.todo.name, f.todo.node, f.left), failed := true);
    FrameSums(Init(stack), g);
    assert StucksOf(g.left) == Stucks(f.todo.node) + StucksOf(f.left);
    assert StucksOf(f.todo) == Stucks(f.todo.node) + StucksOf(g.todo);
    Regrouped(StuckIn(Init(stack)), Stucks(f.todo.node), StucksOf(g.todo), StucksOf(f.left));
    assert StuckLeft(Stays(stack)) == StuckLeft(Init(stack)) + (Stucks(f.todo.node) + StucksOf(f.left));
  }

  lemma OpensSums(stack: seq<Frame>)
    requires stack != [] && Last(stack).todo.Cons? && Last(stack).todo.node.Dir?
    ensures StuckIn(Opens(stack)) == StuckIn(stack)
    ensures StuckLeft(Opens(stack)) == StuckLeft(stack)
    ensures SizeIn(Opens(stack)) < SizeIn(stack)
  {
    LastSums(stack);
    FrameSums(Init(stack), Last(stack).(todo := Last(stack).todo.rest));
    FrameSums(Gone(stack), Last(Opens(stack)));
  }

  function Above(above: Frame, done: Frame): Frame {
    if done.failed then above.(left := Cons(done.name, Dir(done.left), above.left), failed := true) else above
  }

  lemma ClosesSums(stack: seq<Frame>)
    requires |stack| > 1 && Last(stack).todo.Nil? && FrameOk(Last(stack))
    ensures StuckIn(Closes(stack)) == StuckIn(stack)
    ensures StuckLeft(Closes(stack)) == StuckLeft(stack)
    ensures SizeIn(Closes(stack)) == SizeIn(stack)
  {
    var init := Init(stack);
    LastSums(stack);
    assert StucksOf(Last(stack).todo) == multiset{} && SizeOf(Last(stack).todo) == 0;
    ClosedSums(init, Last(stack));
  }

  lemma ClosedSums(init: seq<Frame>, done: Frame)
    requires init != [] && FrameOk(done)
    ensures var after := Init(init) + [Above(Last(init), done)];
            && StuckIn(after) == StuckIn(init) + StucksOf(done.left)
            && StuckLeft(after) == StuckLeft(init) + StucksOf(done.left)
            && SizeIn(after) == SizeIn(init)
  {
    LastSums(init);
    FrameSums(Init(init), Above(Last(init), done));
    ClosedLeft(Last(init), done);
  }

  lemma ClosedLeft(above: Frame, done: Frame)
    requires FrameOk(done)
    ensures StucksOf(Above(above, done).left) == StucksOf(done.left) + StucksOf(above.left)
    ensures Above(above, done).todo == above.todo
    ensures FrameOk(above) ==> FrameOk(Above(above, done))
  {
    if done.failed {
      assert Stucks(Dir(done.left)) == StucksOf(done.left) && Bare(Dir(done.left));
    } else {
      assert StucksOf(done.left) == multiset{};
    }
  }

  /** Which of the entries still to remove is the deepest is not changed by one that is not. */
  lemma ReachesOther(stack: seq<Frame>, after: seq<Frame>, h: nat)
    requires stack != [] && |after| >= |stack| && Last(stack).todo.Cons?
    requires forall i | 0 <= i < |stack| - 1 :: after[i].todo == stack[i].todo
    requires after[|stack| - 1].todo == Last(stack).todo.rest
    requires Reaches(stack, h) && |stack| + Height(Last(stack).todo.node) != h
    ensures Reaches(after, h)
  {
    var i :| 0 <= i < |stack| && i + 1 + HeightOf(stack[i].todo) == h;
    assert i + 1 + HeightOf(after[i].todo) == h;
  }

  lemma WithinRest(stack: seq<Frame>, after: seq<Frame>, h: nat)
    requires stack != [] && |after| >= |stack| && Last(stack).todo.Cons?
    requires forall i | 0 <= i < |stack| - 1 :: after[i].todo == stack[i].todo
    requires after[|stack| - 1].todo == Last(stack).todo.rest
    requires forall i | |stack| <= i < |after| :: i + 1 + HeightOf(after[i].todo) <= h
    requires Within(stack, h)
    ensures Within(after, h) && |stack| + Height(Last(stack).todo.node) <= h
  {
    assert HeightOf(Last(stack).todo) == Max(Height(Last(stack).todo.node), HeightOf(Last(stack).todo.rest));
    assert |stack| - 1 + 1 + HeightOf(stack[|stack| - 1].todo) <= h;
  }

  lemma FileDepths(stack: seq<Frame>, added: Top, h: nat)
    requires stack != [] && Frames(stack) && Last(stack).todo.Cons? && Depths(stack, added, h)
    requires !IsDir(Last(stack).todo.node)
    ensures Depths(Gone(stack), added, h)
    ensures Depths(Stays(stack), added, h)
  {
    WithinRest(stack, Gone(stack), h);
    WithinRest(stack, Stays(stack), h);
    assert Height(Last(stack).todo.node) == 0;
    if h > REMOVE_MAX_OPEN && Reaches(stack, h) {
      ReachesOther(stack, Gone(stack), h);
      ReachesOther(stack, Stays(stack), h);
    }
  }

  lemma StuckDirDepths(stack: seq<Frame>, added: Top, h: nat)
    requires stack != [] && |stack| < REMOVE_MAX_OPEN && Last(stack).todo.Cons? && Depths(stack, added, h)
    requires Last(stack).todo.node.Stuck?
    ensures Depths(Stays(stack), added, h)
  {
    WithinRest(stack, Stays(stack), h);
    if h > REMOVE_MAX_OPEN && Reaches(stack, h) { ReachesOther(stack, Stays(stack), h); }
  }

  lemma OpensDepths(stack: seq<Frame>, added: Top, h: nat)
    requires stack != [] && |stack| < REMOVE_MAX_OPEN && Last(stack).todo.Cons? && Depths(stack, added, h)
    requires Last(stack).todo.node.Dir?
    ensures Depths(Opens(stack), added, h)
  {
    var o := Opens(stack);
    assert HeightOf(Last(stack).todo) >= Height(Last(stack).todo.node);
    assert |stack| - 1 + 1 + HeightOf(stack[|stack| - 1].todo) <= h;
    assert o[|stack|].todo == Last(stack).todo.node.kids;
    WithinRest(stack, o, h);
    if h > REMOVE_MAX_OPEN && Reaches(stack, h) {
      if |stack| + Height(Last(stack).todo.node) == h {
        assert |stack| + 1 + HeightOf(o[|stack|].todo) == h;
      } else {
        ReachesOther(stack, o, h);
      }
    }
  }

  lemma MovedDepths(stack: seq<Frame>, added: Top, h: nat, n: Name)
    requires |stack| == REMOVE_MAX_OPEN && Last(stack).todo.Cons? && Depths(stack, added, h)
    requires IsDir(Last(stack).todo.node) && n.Moved? && n !in added
    ensures Depths(Gone(stack), added[n := Last(stack).todo.node], h)
  {
    var more := added[n := Last(stack).todo.node];
    WithinRest(stack, Gone(stack), h);
    if m: Name :| m in added && REMOVE_MAX_OPEN + Height(added[m]) == h {
      assert m in more && more[m] == added[m];
    }
    if h > REMOVE_MAX_OPEN && Reaches(stack, h) {
      if |stack| + Height(Last(stack).todo.node) == h {
        assert REMOVE_MAX_OPEN + Height(more[n]) == h;
      } else {
        ReachesOther(stack, Gone(stack), h);
      }
    }
  }

  lemma ClosesDepths(stack: seq<Frame>, added: Top, h: nat)
    requires |stack| > 1 && Frames(stack) && Last(stack).todo.Nil? && Depths(stack, added, h)
    ensures Depths(Closes(stack), added, h)
  {
    var c := Closes(stack);
    assert forall i | 0 <= i < |c| :: c[i].todo == stack[i].todo;
    if h > REMOVE_MAX_OPEN && Reaches(stack, h) {
      var i :| 0 <= i < |stack| && i + 1 + HeightOf(stack[i].todo) == h;
      assert i + 1 + HeightOf(c[i].todo) == h;
    }
  }

  lemma ClosesFrames(stack: seq<Frame>)
    requires |stack| > 1 && Frames(stack)
    ensures Frames(Closes(stack))
  {
    var c := Closes(stack);
    assert FrameOk(stack[|stack| - 1]) && FrameOk(stack[|stack| - 2]);
    ClosedLeft(stack[|stack| - 2], stack[|stack| - 1]);
    forall i | 0 <= i < |c| - 1 ensures FrameOk(c[i]) { assert c[i] == stack[i]; }
  }

  /** What the loop over the stack keeps, for an entry `node`. */
  ghost predicate Going(stack: seq<Frame>, node: Node, added: Top, count: nat) {
    && Frames(stack) && Depths(stack, added, Height(node))
    && StuckIn(stack) + StucksIn(added) == Stucks(node)
    && count == |StuckLeft(stack)|
  }

  /** What is left of an entry, if anything is: it holds every stuck entry that was not moved up
      with its dir, and nothing else. */
  ghost predicate Handled(node: Node, rest: Option<Node>, added: Top, count: nat) {
    && AddedOk(added, Height(node)) && (Height(node) > REMOVE_MAX_OPEN ==> Deepest(added, Height(node)))
    && (rest.Some? ==> Bare(rest.value))
    && var stuck := if rest.Some? then Stucks(rest.value) else multiset{};
       Stucks(node) == stuck + StucksIn(added) && count == |stuck|
  }

  lemma GoingStarts(node: Node, name: Name)
    requires node.Dir?
    ensures Going([Frame(name, node.kids, Nil, false)], node, map[], 0)
  {
    var f := Frame(name, node.kids, Nil, false);
    FrameSums([], f);
    assert [] + [f] == [f];
    assert 0 + 1 + HeightOf([f][0].todo) == Height(node);
  }

  lemma ChildFrames(stack: seq<Frame>)
    requires stack != [] && Frames(stack) && Last(stack).todo.Cons?
    ensures Frames(Gone(stack))
    ensures Last(stack).todo.node.Stuck? ==> Frames(Stays(stack))
    ensures Last(stack).todo.node.Dir? && |stack| < REMOVE_MAX_OPEN ==> Frames(Opens(stack))
  {
    assert FrameOk(stack[|stack| - 1]);
    assert Last(stack).todo.node.Stuck? ==> Bare(Last(stack).todo.node) && AllBare(Last(Stays(stack)).left);
    forall i | 0 <= i < |stack| - 1 ensures FrameOk(Gone(stack)[i]) && FrameOk(Stays(stack)[i]) {
      assert FrameOk(stack[i]);
    }
  }

  /** A file goes, or is stuck and stays. */
  lemma GoingFile(stack: seq<Frame>, node: Node, added: Top, count: nat)
    requires stack != [] && Last(stack).todo.Cons? && Going(stack, node, added, count)
    requires !IsDir(Last(stack).todo.node)
    ensures Last(stack).todo.node.File? ==> Going(Gone(stack), node, added, count) && SizeIn(Gone(stack)) < SizeIn(stack)
    ensures Last(stack).todo.node.Stuck? ==> Going(Stays(stack), node, added, count + 1) && SizeIn(Stays(stack)) < SizeIn(stack)
  {
    FileDepths(stack, added, Height(node));
    ChildFrames(stack);
    if Last(stack).todo.node.File? { GoneSums(stack); } else { StaysSums(stack); }
  }

  /** A dir is opened, or cannot be and stays. */
  lemma GoingDir(stack: seq<Frame>, node: Node, added: Top, count: nat)
    requires stack != [] && |stack| < REMOVE_MAX_OPEN && Last(stack).todo.Cons? && Going(stack, node, added, count)
    ensures Last(stack).todo.node.Dir? ==> Going(Opens(stack), node, added, count) && SizeIn(Opens(stack)) < SizeIn(stack)
    ensures Last(stack).todo.node.Stuck? ==> Going(Stays(stack), node, added, count + 1) && SizeIn(Stays(stack)) < SizeIn(stack)
  {
    ChildFrames(stack);
    if Last(stack).todo.node.Dir? {
      OpensSums(stack);
      OpensDepths(stack, added, Height(node));
    } else if Last(stack).todo.node.Stuck? {
      StaysSums(stack);
      StuckDirDepths(stack, added, Height(node));
    }
  }

  function Tried(stack: seq<Frame>): seq<Frame>
    requires stack != [] && Last(stack).todo.Cons?
  {
    match Last(stack).todo.node
    case File => Gone(stack)
    case Dir(_) => Opens(stack)
    case Stuck(_, _) => Stays(stack)
  }

  lemma GoingTries(stack: seq<Frame>, node: Node, added: Top, count: nat, after: nat)
    requires stack != [] && Last(stack).todo.Cons? && Going(stack, node, added, count)
    requires IsDir(Last(stack).todo.node) ==> |stack| < REMOVE_MAX_OPEN
    requires after == count + if Last(stack).todo.node.Stuck? then 1 else 0
    ensures Going(Tried(stack), node, added, after) && SizeIn(Tried(stack)) < SizeIn(stack)
  {
    if IsDir(Last(stack).todo.node) { GoingDir(stack, node, added, count); } else { GoingFile(stack, node, added, count); }
  }

  /** A dir that lies too deep is moved up, whether or not it could be opened. */
  lemma GoingMoves(stack: seq<Frame>, node: Node, added: Top, count: nat, name: Name)
    requires |stack| == REMOVE_MAX_OPEN && Last(stack).todo.Cons? && Going(stack, node, added, count)
    requires IsDir(Last(stack).todo.node) && name.Moved? && name !in added
    ensures Going(Gone(stack), node, added[name := Last(stack).todo.node], count) && SizeIn(Gone(stack)) < SizeIn(stack)
  {
    ChildFrames(stack);
    GoneSums(stack);
    StucksWith(added, name, Last(stack).todo.node);
    MovedDepths(stack, added, Height(node), name);
  }

  /** A dir below the last of REMOVE_MAX_OPEN open ones. */
  predicate TooDeep(stack: seq<Frame>)
    requires stack != [] && Last(stack).todo.Cons?
  {
    IsDir(Last(stack).todo.node) && |stack| >= REMOVE_MAX_OPEN
  }

  function ChildAfter(stack: seq<Frame>): seq<Frame>
    requires stack != [] && Last(stack).todo.Cons?
  {
    if TooDeep(stack) then Gone(stack) else Tried(stack)
  }

  function StuckHere(stack: seq<Frame>): nat
    requires stack != [] && Last(stack).todo.Cons?
  {
    if !TooDeep(stack) && Last(stack).todo.node.Stuck? then 1 else 0
  }

  function AddedAfter(added: Top, name: Option<Name>, node: Node): Top {
    if name.Some? then added[name.value := node] else added
  }

  /** The loop, and what it has done to the top. */
  ghost predicate Emptying(stack: seq<Frame>, node: Node, added: Top, stuck: nat, top0: Top, top: Top) {
    Going(stack, node, added, stuck) && added.Keys !! top0.Keys && top == top0 + added
  }

  lemma EmptyingChild(stack: seq<Frame>, node: Node, added: Top, stuck: nat, top0: Top, top: Top, name: Option<Name>)
    requires stack != [] && Last(stack).todo.Cons? && Emptying(stack, node, added, stuck, top0, top)
    requires (name.Some? <==> TooDeep(stack)) && (name.Some? ==> name.value.Moved? && name.value !in top)
    ensures var more, child := AddedAfter(added, name, Last(stack).todo.node), Last(stack).todo.node;
            && Emptying(ChildAfter(stack), node, more, stuck + StuckHere(stack), top0,
                        if name.Some? then top[name.value := child] else top)
            && (name.Some? ==> more != map[] && more != added)
    ensures SizeIn(ChildAfter(stack)) < SizeIn(stack) && ChildAfter(stack) != [] && |stack| <= REMOVE_MAX_OPEN
  {
    if name.Some? {
      GoingMoves(stack, node, added, stuck, name.value);
      JoinedChanges(top0, added, name.value, Last(stack).todo.node);
      assert name.value in AddedAfter(added, name, Last(stack).todo.node) && name.value !in added;
    } else {
      GoingTries(stack, node, added, stuck, stuck + StuckHere(stack));
    }
  }

  lemma GoingCloses(stack: seq<Frame>, node: Node, added: Top, count: nat)
    requires |stack| > 1 && Last(stack).todo.Nil? && Going(stack, node, added, count)
    ensures Going(Closes(stack), node, added, count) && SizeIn(Closes(stack)) == SizeIn(stack)
  {
    assert FrameOk(stack[|stack| - 1]);
    ClosesSums(stack);
    ClosesDepths(stack, added, Height(node));
    ClosesFrames(stack);
  }

  lemma EmptyingCloses(stack: seq<Frame>, node: Node, added: Top, stuck: nat, top0: Top, top: Top)
    requires |stack| > 1 && Last(stack).todo.Nil? && Emptying(stack, node, added, stuck, top0, top)
    ensures Emptying(Closes(stack), node, added, stuck, top0, top)
    ensures SizeIn(Closes(stack)) == SizeIn(stack) && |Closes(stack)| < |stack| && Closes(stack) != []
  {
    GoingCloses(stack, node, added, stuck);
  }

  lemma GoingEnds(stack: seq<Frame>, node: Node, added: Top, count: nat)
    requires Going(stack, node, added, count) && |stack| == 1 && Last(stack).todo.Nil?
    ensures Handled(node, if Last(stack).left.Nil? then None else Some(Dir(Last(stack).left)), added, count)
    ensures Last(stack).failed <==> Last(stack).left.Cons?
  {
    LastSums(stack);
    assert FrameOk(stack[0]);
    assert StuckIn(Init(stack)) == multiset{};
    if Height(node) > REMOVE_MAX_OPEN { assert !Reaches(stack, Height(node)); }
  }

  lemma LeafHandled(node: Node)
    ensures node.File? ==> Handled(node, None, map[], 0)
    ensures node.Stuck? ==> Handled(node, Some(node), map[], 1)
  {
    assert StucksIn(map[]) == multiset{};
  }

  lemma JoinedChanges(top: Top, added: Top, name: Name, node: Node)
    requires added.Keys !! top.Keys
    ensures name in top ==> (top + added) - {name} == (top - {name}) + added
    ensures name in top ==> (top + added)[name := node] == top[name := node] + added
    ensures name !in top ==> (top + added)[name := node] == top + added[name := node] && added[name := node].Keys !! top.Keys
  {
  }

  // ---- a pass over the top ----

  predicate AtMost(top: Top, h: nat) {
    forall n <- top :: Height(top[n]) <= h
  }

  function AfterEntry(top: Top, name: Name, rest: Option<Node>, added: Top): Top {
    (if rest.None? then top - {name} else top[name := rest.value]) + added
  }

  /** The names of entries that are settled once `name` was handled. */
  function Settled(failed: set<Name>, name: Name, rest: Option<Node>): set<Name> {
    if rest.None? then failed else failed + {name}
  }

  lemma OpenAfter(top: Top, name: Name, rest: Option<Node>, added: Top, open: set<Name>)
    requires name in top && name in open && open <= top.Keys && added.Keys !! top.Keys
    ensures Only(AfterEntry(top, name, rest, added), (open - {name}) + added.Keys) == (Only(top, open) - {name}) + added
  {
  }

  lemma SettledAfter(top: Top, name: Name, rest: Option<Node>, added: Top, failed: set<Name>)
    requires name in top && name !in failed && failed <= top.Keys && added.Keys !! top.Keys
    ensures Only(AfterEntry(top, name, rest, added), Settled(failed, name, rest)) ==
            if rest.None? then Only(top, failed) else Only(top, failed)[name := rest.value]
  {
  }

  /** Handling one entry loses no stuck entry and counts those that stay. */
  lemma EntrySums(top: Top, name: Name, rest: Option<Node>, added: Top, failed: set<Name>, open: set<Name>, count: nat)
    requires name in top && name in open && open <= top.Keys && added.Keys !! top.Keys
    requires name !in failed && failed <= top.Keys
    requires Handled(top[name], rest, added, count)
    ensures var after := AfterEntry(top, name, rest, added);
            var failed2, open2 := Settled(failed, name, rest), (open - {name}) + added.Keys;
            && StucksIn(Only(after, failed2)) + StucksIn(Only(after, open2)) == StucksIn(Only(top, failed)) + StucksIn(Only(top, open))
            && |StucksIn(Only(after, failed2))| == |StucksIn(Only(top, failed))| + count
  {
    OpenAfter(top, name, rest, added, open);
    SettledAfter(top, name, rest, added, failed);
    StucksWithout(Only(top, open), name);
    StucksJoined(Only(top, open) - {name}, added);
    if rest.Some? { StucksWith(Only(top, failed), name, rest.value); }
  }

  /** In the middle of a pass: `todo` are the names listed and not handled yet, `moved` the new
      ones, and `was` is the top when the pass began. */
  datatype Pass = Pass(was: Top, keep: Option<Name>, settled: set<Name>, todo: set<Name>, added: set<Name>)

  function KeepSet(keep: Option<Name>): set<Name> {
    if keep.Some? then {keep.value} else {}
  }

  /** What the pass has to clear. */
  function Wanted(p: Pass): set<Name> {
    p.was.Keys - KeepSet(p.keep) - p.settled
  }

  function Open(p: Pass): set<Name> {
    (Wanted(p) * p.todo) + p.added
  }

  ghost predicate Passing(p: Pass, top: Top, failed: set<Name>) {
    && p.settled <= failed <= top.Keys && failed !! KeepSet(p.keep) && failed !! (Wanted(p) * p.todo)
    && (forall n <- failed :: Bare(top[n]))
    && p.todo <= top.Keys && p.todo <= p.was.Keys
    && p.added <= top.Keys && p.added !! p.todo && p.added !! failed && p.added !! KeepSet(p.keep)
    && top.Keys == (KeepSet(p.keep) * p.was.Keys) + failed + Open(p)
    && (forall n <- Wanted(p) * p.todo :: top[n] == p.was[n])
    && (forall n <- KeepSet(p.keep) :: (n in top <==> n in p.was) && (n in top ==> top[n] == p.was[n]))
  }

  /** How the heights of what was moved up relate to the heights of what it was moved out of. */
  ghost predicate Lower(p: Pass, top: Top)
    requires p.added <= top.Keys
  {
    && (forall n <- p.added :: 1 <= Height(top[n]) && exists m <- Wanted(p) :: REMOVE_MAX_OPEN + Height(top[n]) <= Height(p.was[m]))
    && (forall m <- Wanted(p) - p.todo | Height(p.was[m]) > REMOVE_MAX_OPEN ::
          exists n <- p.added :: REMOVE_MAX_OPEN + Height(top[n]) >= Height(p.was[m]))
  }

  function Next(p: Pass, name: Name, added: Top): Pass {
    p.(todo := p.todo - {name}, added := p.added + added.Keys)
  }

  lemma PassingEntry(p: Pass, top: Top, failed: set<Name>, name: Name, rest: Option<Node>, added: Top, count: nat)
    requires Passing(p, top, failed) && name in p.todo && name in Wanted(p) && name in top
    requires (p.keep.Some? ==> p.keep.value.Listed?) && added.Keys !! top.Keys
    requires Handled(top[name], rest, added, count)
    ensures Passing(Next(p, name, added), AfterEntry(top, name, rest, added), Settled(failed, name, rest))
  {
    OpenEntry(p, top, failed, name, added);
    AfterAdded(top, name, rest, added);
    BareEntry(p, top, failed, name, rest, added, count);
  }

  lemma OpenEntry(p: Pass, top: Top, failed: set<Name>, name: Name, added: Top)
    requires Passing(p, top, failed) && name in p.todo && name in Wanted(p)
    ensures Open(Next(p, name, added)) == (Open(p) - {name}) + added.Keys
  {
  }

  lemma BareEntry(p: Pass, top: Top, failed: set<Name>, name: Name, rest: Option<Node>, added: Top, count: nat)
    requires Passing(p, top, failed) && name in p.todo && name in Wanted(p) && name in top && added.Keys !! top.Keys
    requires Handled(top[name], rest, added, count)
    ensures var after := AfterEntry(top, name, rest, added);
            forall n <- Settled(failed, name, rest) :: n in after && Bare(after[n])
  {
    AfterAdded(top, name, rest, added);
    assert name !in failed;
  }

  lemma MovedFromWanted(p: Pass, after: Top, n: Name, h: nat, name: Name)
    requires name in Wanted(p) && n in after && 1 <= Height(after[n])
    requires REMOVE_MAX_OPEN + Height(after[n]) <= h && h == Height(p.was[name])
    ensures exists m <- Wanted(p) :: REMOVE_MAX_OPEN + Height(after[n]) <= Height(p.was[m])
  {
  }

  lemma AfterAdded(top: Top, name: Name, rest: Option<Node>, added: Top)
    requires name in top && added.Keys !! top.Keys
    ensures var after := AfterEntry(top, name, rest, added);
            && (forall n <- added :: n in after && after[n] == added[n])
            && (forall n <- top | n != name :: n in after && after[n] == top[n])
  {
  }

  lemma LowerEntry(p: Pass, top: Top, failed: set<Name>, name: Name, rest: Option<Node>, added: Top, count: nat)
    requires Passing(p, top, failed) && name in p.todo && name in Wanted(p) && name in top && top[name] == p.was[name]
    requires added.Keys !! top.Keys && Handled(top[name], rest, added, count) && Lower(p, top)
    ensures p.added + added.Keys <= AfterEntry(top, name, rest, added).Keys
    ensures Lower(Next(p, name, added), AfterEntry(top, name, rest, added))
  {
    var after, p2 := AfterEntry(top, name, rest, added), Next(p, name, added);
    AfterAdded(top, name, rest, added);
    assert name !in p.added;
    forall n | n in p2.added
      ensures 1 <= Height(after[n]) && exists m <- Wanted(p) :: REMOVE_MAX_OPEN + Height(after[n]) <= Height(p.was[m])
    {
      if n in added {
        MovedFromWanted(p, after, n, Height(top[name]), name);
      } else {
        assert n in p.added && after[n] == top[n];
      }
    }
    forall m | m in Wanted(p) - p2.todo && Height(p.was[m]) > REMOVE_MAX_OPEN
      ensures exists n <- p2.added :: REMOVE_MAX_OPEN + Height(after[n]) >= Height(p.was[m])
    {
      DeepEntry(p, top, after, name, added, m);
    }
  }

  lemma DeepEntry(p: Pass, top: Top, after: Top, name: Name, added: Top, m: Name)
    requires p.added <= top.Keys && name in p.was && name !in p.added && name in top && top[name] == p.was[name]
    requires m in Wanted(p) && Height(p.was[m]) > REMOVE_MAX_OPEN
    requires forall n <- added :: n in after && after[n] == added[n]
    requires forall n <- top | n != name :: n in after && after[n] == top[n]
    requires m == name ==> Deepest(added, Height(top[name]))
    requires m != name ==> exists n <- p.added :: REMOVE_MAX_OPEN + Height(top[n]) >= Height(p.was[m])
    ensures exists n <- p.added + added.Keys :: n in after && REMOVE_MAX_OPEN + Height(after[n]) >= Height(p.was[m])
  {
    if m == name {
      var n :| n in added && REMOVE_MAX_OPEN + Height(added[n]) == Height(top[name]);
      assert n in p.added + added.Keys && after[n] == added[n];
    } else {
      var n :| n in p.added && REMOVE_MAX_OPEN + Height(top[n]) >= Height(p.was[m]);
      assert n in p.added + added.Keys && after[n] == top[n];
    }
  }

  /** What a pass keeps: `all` are the stuck entries to keep account of, `stuck` how many of them
      were counted. */
  ghost predicate InPass(p: Pass, top: Top, failed: set<Name>, all: multiset<nat>, stuck: nat) {
    && Passing(p, top, failed) && Lower(p, top)
    && StucksIn(Only(top, failed)) + StucksIn(Only(top, Open(p))) == all
    && stuck == |StucksIn(Only(top, failed))|
  }

  lemma PassBegins(top: Top, keep: Option<Name>, settled: set<Name>)
    requires settled <= top.Keys && settled !! KeepSet(keep) && forall n <- settled :: Bare(top[n])
    ensures var p := Pass(top, keep, settled, top.Keys, {});
            InPass(p, top, settled, StucksIn(Only(top, settled)) + StucksIn(Only(top, Wanted(p))), |StucksIn(Only(top, settled))|)
  {
    var p := Pass(top, keep, settled, top.Keys, {});
    assert Open(p) == Wanted(p);
    assert Passing(p, top, settled);
    assert Lower(p, top);
  }

  lemma PassSkips(p: Pass, top: Top, failed: set<Name>, all: multiset<nat>, stuck: nat, name: Name)
    requires InPass(p, top, failed, all, stuck) && name in p.todo && (p.keep == Some(name) || name in failed)
    ensures InPass(p.(todo := p.todo - {name}), top, failed, all, stuck)
  {
    PassingSkip(p, top, failed, name);
  }

  lemma PassTakes(p: Pass, top: Top, failed: set<Name>, all: multiset<nat>, stuck: nat,
                  name: Name, rest: Option<Node>, added: Top, count: nat)
    requires InPass(p, top, failed, all, stuck)
    requires (p.keep.Some? ==> p.keep.value.Listed?) && added.Keys !! top.Keys
    requires name in p.todo && p.keep != Some(name) && name !in failed
    requires name in top ==> Handled(top[name], rest, added, count)
    ensures InPass(Next(p, name, added), AfterEntry(top, name, rest, added), Settled(failed, name, rest), all, stuck + count)
  {
    assert name in Wanted(p);
    PassingEntry(p, top, failed, name, rest, added, count);
    OpenEntry(p, top, failed, name, added);
    LowerEntry(p, top, failed, name, rest, added, count);
    EntrySums(top, name, rest, added, failed, Open(p), count);
  }

  lemma PassingSkip(p: Pass, top: Top, failed: set<Name>, name: Name)
    requires Passing(p, top, failed) && Lower(p, top) && name in p.todo && (p.keep == Some(name) || name in failed)
    ensures var p2 := p.(todo := p.todo - {name});
            Passing(p2, top, failed) && Lower(p2, top) && Open(p2) == Open(p)
  {
    assert name !in Wanted(p) * p.todo;
    var p2 := p.(todo := p.todo - {name});
    assert Wanted(p2) - p2.todo == Wanted(p) - p.todo;
    assert Wanted(p2) * p2.todo == Wanted(p) * p.todo;
  }

  /** What clear_tree has made of the top so far: what is kept is as it was, the entries in
      `failed` hold stuck entries and nothing else, those in `rest` were not come to, there is no
      other entry, and no stuck entry got lost. */
  ghost predicate Cleared(was: Top, top: Top, keep: Option<Name>, failed: set<Name>, rest: set<Name>) {
    && failed !! rest && failed !! KeepSet(keep) && rest !! KeepSet(keep)
    && top.Keys == (KeepSet(keep) * was.Keys) + failed + rest
    && Only(top, KeepSet(keep)) == Only(was, KeepSet(keep))
    && (forall n <- failed :: Bare(top[n]))
    && StucksIn(Only(top, failed)) + StucksIn(Only(top, rest)) == StucksIn(Only(was, was.Keys - KeepSet(keep)))
  }

  lemma ClearedAtFirst(top: Top, keep: Option<Name>)
    ensures Cleared(top, top, keep, {}, top.Keys - KeepSet(keep))
    ensures |StucksIn(Only(top, {}))| == 0
    ensures Sunk(Only(top, top.Keys - KeepSet(keep)), Only(top, top.Keys - KeepSet(keep)), 0)
  {
    assert Only(top, {}) == map[];
    assert StucksIn(map[]) == multiset{};
  }

  ghost predicate Clears(was: Top, top: Top, keep: Option<Name>, failed: set<Name>, rest: set<Name>, passes: nat) {
    && Cleared(was, top, keep, failed, rest) && rest == top.Keys - KeepSet(keep) - failed
    && Sunk(Only(was, was.Keys - KeepSet(keep)), Only(top, rest), passes)
  }

  lemma ClearsMore(first: Top, p: Pass, top: Top, failed: set<Name>, passes: nat, stuck: nat)
    requires Clears(first, p.was, p.keep, p.settled, Wanted(p), passes) && p.todo == {}
    requires InPass(p, top, failed, StucksIn(Only(p.was, p.settled)) + StucksIn(Only(p.was, Wanted(p))), stuck)
    ensures Clears(first, top, p.keep, failed, p.added, passes + 1)
    ensures stuck == |StucksIn(Only(top, failed))|
  {
    assert Open(p) == p.added;
    ClearedMore(first, p, top, failed);
    SunkMore(Only(first, first.Keys - KeepSet(p.keep)), p, top, passes);
  }

  lemma ClearsEnds(was: Top, top: Top, keep: Option<Name>, failed: set<Name>, rest: set<Name>, passes: nat)
    requires Clears(was, top, keep, failed, rest, passes) && 0 < passes <= REMOVE_MAX_PASSES
    requires rest == {} || passes == REMOVE_MAX_PASSES
    ensures rest == {} <==> AtMost(Only(was, was.Keys - KeepSet(keep)), REMOVE_MAX_OPEN * REMOVE_MAX_PASSES)
  {
    assert Only(top, rest).Keys == rest;
    assert rest == {} <==> Only(top, rest) == map[];
    SunkEnds(Only(was, was.Keys - KeepSet(keep)), Only(top, rest), passes);
  }

  lemma ClearedMore(first: Top, p: Pass, top: Top, failed: set<Name>)
    requires Cleared(first, p.was, p.keep, p.settled, Wanted(p))
    requires p.todo == {} && Passing(p, top, failed)
    requires StucksIn(Only(top, failed)) + StucksIn(Only(top, p.added)) ==
             StucksIn(Only(p.was, p.settled)) + StucksIn(Only(p.was, Wanted(p)))
    ensures Cleared(first, top, p.keep, failed, p.added)
  {
    assert Open(p) == p.added;
    assert Only(top, KeepSet(p.keep)) == Only(p.was, KeepSet(p.keep));
  }

  /** After `passes` passes what is left to clear is 32 dirs lower for each of them, and only then
      is there nothing left when the whole was not higher than that. */
  ghost predicate Sunk(all: Top, rest: Top, passes: nat) {
    && (forall h: nat :: AtMost(rest, h) <==> AtMost(all, h + REMOVE_MAX_OPEN * passes))
    && (passes > 0 ==> forall n <- rest :: Height(rest[n]) >= 1)
  }

  lemma SunkMore(all: Top, p: Pass, top: Top, passes: nat)
    requires Sunk(all, Only(p.was, Wanted(p)), passes) && p.todo == {} && p.added <= top.Keys && Lower(p, top)
    ensures Sunk(all, Only(top, p.added), passes + 1)
  {
    var was, rest := Only(p.was, Wanted(p)), Only(top, p.added);
    forall h: nat ensures AtMost(rest, h) <==> AtMost(all, h + REMOVE_MAX_OPEN * (passes + 1)) {
      assert AtMost(was, h + REMOVE_MAX_OPEN) <==> AtMost(all, h + REMOVE_MAX_OPEN + REMOVE_MAX_OPEN * passes);
      LowerBound(p, top, h);
    }
  }

  lemma LowerBound(p: Pass, top: Top, h: nat)
    requires p.todo == {} && p.added <= top.Keys && Lower(p, top)
    ensures AtMost(Only(top, p.added), h) <==> AtMost(Only(p.was, Wanted(p)), h + REMOVE_MAX_OPEN)
  {
    var was, rest := Only(p.was, Wanted(p)), Only(top, p.added);
    if AtMost(was, h + REMOVE_MAX_OPEN) {
      forall n | n in rest ensures Height(rest[n]) <= h {
        var m :| m in Wanted(p) && REMOVE_MAX_OPEN + Height(top[n]) <= Height(p.was[m]);
        assert Height(was[m]) <= h + REMOVE_MAX_OPEN;
      }
    }
    if AtMost(rest, h) {
      forall m | m in was ensures Height(was[m]) <= h + REMOVE_MAX_OPEN {
        if Height(was[m]) > REMOVE_MAX_OPEN {
          var n :| n in p.added && REMOVE_MAX_OPEN + Height(top[n]) >= Height(p.was[m]);
          assert Height(rest[n]) <= h;
        }
      }
    }
  }

  lemma SunkEnds(all: Top, rest: Top, passes: nat)
    requires Sunk(all, rest, passes) && 0 < passes <= REMOVE_MAX_PASSES
    requires rest == map[] || passes == REMOVE_MAX_PASSES
    ensures rest == map[] <==> AtMost(all, REMOVE_MAX_OPEN * REMOVE_MAX_PASSES)
  {
    assert AtMost(rest, 0) <==> AtMost(all, 0 + REMOVE_MAX_OPEN * passes);
    if AtMost(rest, 0) {
      assert forall n :: n !in rest;
      assert rest == map[];
    }
    assert REMOVE_MAX_OPEN * passes <= REMOVE_MAX_OPEN * REMOVE_MAX_PASSES;
  }

  /** The dir that is cleared, and what was noted on the way. */
  class Removal {
    var top: Top
    var count: nat          // left.count
    var moved: bool
    ghost var mostOpen: nat // the most dirs open at once

    constructor (top: Top)
      ensures this.top == top && count == 0 && !moved && mostOpen == 0
    {
      this.top, count, moved, mostOpen := top, 0, false, 0;
    }

    /** move_up: the dir goes into the top under a new name. */
    method MoveUp(node: Node) returns (name: Name)
      modifies this`top, this`moved
      ensures name.Moved? && name !in old(top) && top == old(top)[name := node] && moved
    {
      FreshName(top);
      var n: nat :| Moved(n) !in top;
      name := Moved(n);
      top := top[name := node];
      moved := true;
    }

    /** remove_subtree */
    method RemoveSubtree(name: Name) returns (gone: bool, ghost added: Top)
      requires name in top && mostOpen <= REMOVE_MAX_OPEN
      modifies this
      ensures mostOpen <= REMOVE_MAX_OPEN
      ensures added.Keys !! old(top).Keys
      ensures gone ==> top == (old(top) - {name}) + added
      ensures !gone ==> name in top && top == old(top)[name := top[name]] + added
      ensures count >= old(count)
      ensures Handled(old(top)[name], if gone then None else Some(top[name]), added, count - old(count))
      ensures moved <==> old(moved) || added != map[]
    {
      var node := top[name];
      LeafHandled(node);
      if node.File? {
        top := top - {name};
        return true, map[];
      }
      if node.Stuck? {
        count := count + 1;
        return false, map[];
      }
      var left;
      left, added := EmptyDir(name, node.kids);
      gone := left.Nil?;
      JoinedChanges(old(top), added, name, Dir(left));
      if gone {
        top := top - {name};
      } else {
        top := top[name := Dir(left)];
      }
    }

    /** The loop over the stack of open dirs. */
    method EmptyDir(name: Name, kids: Kids) returns (left: Kids, ghost added: Top)
      requires mostOpen <= REMOVE_MAX_OPEN
      modifies this
      ensures mostOpen <= REMOVE_MAX_OPEN && count >= old(count)
      ensures added.Keys !! old(top).Keys && top == old(top) + added
      ensures moved <==> old(moved) || added != map[]
      ensures Handled(Dir(kids), if left.Nil? then None else Some(Dir(left)), added, count - old(count))
    {
      var stack := [Frame(name, kids, Nil, false)];
      added := map[];
      ghost var stuck: nat := 0;
      GoingStarts(Dir(kids), name);
      while |stack| > 1 || stack[0].todo.Cons?
        invariant stack != [] && mostOpen <= REMOVE_MAX_OPEN && count == old(count) + stuck
        invariant Emptying(stack, Dir(kids), added, stuck, old(top), top)
        invariant moved <==> old(moved) || added != map[]
        decreases SizeIn(stack), |stack|
      {
        stack, added, stuck := EmptyOnce(stack, Dir(kids), added, stuck, old(top));
      }
      GoingEnds(stack, Dir(kids), added, stuck);
      left := stack[0].left;
    }

    /** One round of the loop: an entry is handled, or a dir that has none left is closed. */
    method EmptyOnce(stack: seq<Frame>, ghost node: Node, ghost added: Top, ghost stuck: nat, ghost top0: Top)
      returns (after: seq<Frame>, ghost more: Top, ghost stuck2: nat)
      requires stack != [] && (|stack| > 1 || Last(stack).todo.Cons?) && mostOpen <= REMOVE_MAX_OPEN
      requires Emptying(stack, node, added, stuck, top0, top)
      modifies this
      ensures after != [] && mostOpen <= REMOVE_MAX_OPEN && count == old(count) + stuck2 - stuck && stuck <= stuck2
      ensures Emptying(after, node, more, stuck2, top0, top)
      ensures if more == added then moved == old(moved) else moved && more != map[]
      ensures SizeIn(after) < SizeIn(stack) || (SizeIn(after) == SizeIn(stack) && |after| < |stack|)
    {
      more, stuck2 := added, stuck;
      if stack[|stack| - 1].todo.Cons? {
        ghost var to: Option<Name>;
        after, to := HandleChild(stack);
        EmptyingChild(stack, node, added, stuck, top0, old(top), to);
        more, stuck2 := AddedAfter(added, to, Last(stack).todo.node), stuck + StuckHere(stack);
      } else {
        EmptyingCloses(stack, node, added, stuck, top0, top);
        after := Closes(stack);
      }
    }

    /** One entry of the last dir of the stack; `name` is what a dir that lies too deep is moved to. */
    method HandleChild(stack: seq<Frame>) returns (after: seq<Frame>, ghost name: Option<Name>)
      requires stack != [] && Last(stack).todo.Cons?
      modifies this
      ensures mostOpen == Max(old(mostOpen), |stack|)
      ensures name.Some? <==> TooDeep(stack)
      ensures after == ChildAfter(stack)
      ensures count == old(count) + StuckHere(stack)
      ensures if name.Some? then name.value.Moved? && name.value !in old(top) && moved
                                 && top == old(top)[name.value := Last(stack).todo.node]
              else top == old(top) && moved == old(moved)
    {
      var child := stack[|stack| - 1].todo.node;
      mostOpen := if mostOpen < |stack| then |stack| else mostOpen;
      if IsDir(child) && |stack| >= REMOVE_MAX_OPEN {
        var to := MoveUp(child);
        name := Some(to);
        after := Gone(stack);
      } else {
        name := None;
        after := TakeChild(stack);
      }
    }

    /** An entry that is tried where it is. */
    method TakeChild(stack: seq<Frame>) returns (after: seq<Frame>)
      requires stack != [] && Last(stack).todo.Cons?
      modifies this`count
      ensures after == Tried(stack)
      ensures count == old(count) + if Last(stack).todo.node.Stuck? then 1 else 0
    {
      match stack[|stack| - 1].todo.node
      case File =>
        after := Gone(stack);
      case Dir(_) =>
        after := Opens(stack);
      case Stuck(_, _) =>
        count := count + 1;
        after := Stays(stack);
    }

    /** One pass of clear_tree over the entries listed when it begins. */
    method ClearPass(keep: Option<Name>, settled: set<Name>, ghost base: nat)
      returns (failed: set<Name>, ghost p: Pass)
      requires keep.Some? ==> keep.value.Listed?
      requires mostOpen <= REMOVE_MAX_OPEN && !moved
      requires settled <= top.Keys && settled !! KeepSet(keep) && forall n <- settled :: Bare(top[n])
      requires count == base + |StucksIn(Only(top, settled))|
      modifies this
      ensures mostOpen <= REMOVE_MAX_OPEN && (moved <==> p.added != {})
      ensures p.was == old(top) && p.keep == keep && p.settled == settled && p.todo == {}
      ensures base <= count
      ensures InPass(p, top, failed, StucksIn(Only(old(top), settled)) + StucksIn(Only(old(top), Wanted(p))), count - base)
    {
      var todo := top.Keys;
      failed := settled;
      p := Pass(top, keep, settled, todo, {});
      ghost var all := StucksIn(Only(top, settled)) + StucksIn(Only(top, Wanted(p)));
      PassBegins(top, keep, settled);
      while todo != {}
        invariant mostOpen <= REMOVE_MAX_OPEN && (moved <==> p.added != {})
        invariant p.was == old(top) && p.keep == keep && p.settled == settled && p.todo == todo
        invariant base <= count && InPass(p, top, failed, all, count - base)
        decreases todo
      {
        var name :| name in todo;
        todo := todo - {name};
        if keep == Some(name) || name in failed {
          PassSkips(p, top, failed, all, count - base, name);
          p := p.(todo := todo);
        } else {
          failed, p := ClearEntry(name, failed, p, all, base);
        }
      }
    }

    method ClearEntry(name: Name, failed: set<Name>, ghost p: Pass, ghost all: multiset<nat>, ghost base: nat)
      returns (more: set<Name>, ghost p2: Pass)
      requires p.keep.Some? ==> p.keep.value.Listed?
      requires mostOpen <= REMOVE_MAX_OPEN && name in p.todo && p.keep != Some(name) && name !in failed
      requires base <= count && InPass(p, top, failed, all, count - base) && (moved <==> p.added != {})
      modifies this
      ensures mostOpen <= REMOVE_MAX_OPEN && (moved <==> p2.added != {})
      ensures p2.was == p.was && p2.keep == p.keep && p2.settled == p.settled && p2.todo == p.todo - {name}
      ensures base <= count && InPass(p2, top, more, all, count - base)
    {
      var gone; ghost var added;
      gone, added := RemoveSubtree(name);
      ghost var rest := if gone then None else Some(top[name]);
      more := if gone then failed else failed + {name};
      assert top == AfterEntry(old(top), name, rest, added);
      PassTakes(p, old(top), failed, all, old(count) - base, name, rest, added, count - old(count));
      p2 := Next(p, name, added);
      assert added == map[] <==> added.Keys == {};
    }

    /** clear_tree. `rest` are the names that no pass came to. */
    method ClearTree(keep: Option<Name>) returns (failed: set<Name>, ghost rest: set<Name>)
      requires keep.Some? ==> keep.value.Listed?
      requires mostOpen <= REMOVE_MAX_OPEN
      modifies this
      ensures mostOpen <= REMOVE_MAX_OPEN
      ensures Cleared(old(top), top, keep, failed, rest)
      ensures count == old(count) + |StucksIn(Only(top, failed))|
      ensures rest == {} <==> AtMost(Only(old(top), old(top).Keys - KeepSet(keep)), REMOVE_MAX_OPEN * REMOVE_MAX_PASSES)
    {
      failed := {};
      var pass: nat := 0;
      rest := top.Keys - KeepSet(keep);
      ClearedAtFirst(top, keep);
      while pass < REMOVE_MAX_PASSES
        invariant pass <= REMOVE_MAX_PASSES && mostOpen <= REMOVE_MAX_OPEN
        invariant Clears(old(top), top, keep, failed, rest, pass)
        invariant count == old(count) + |StucksIn(Only(top, failed))|
      {
        moved := false;
        ghost var p: Pass;
        failed, p := ClearPass(keep, failed, old(count));
        ClearsMore(old(top), p, top, failed, pass, count - old(count));
        rest := p.added;
        pass := pass + 1;
        if !moved {
          break;
        }
      }
      ClearsEnds(old(top), top, keep, failed, rest, pass);
    }
  }
}
