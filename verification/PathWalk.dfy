/** The walk that checks every dir on the way to a runtime dir (core/src/connfile.rs:
    check_path_dirs), against pathname resolution as section 4.13 of POSIX.1-2017 has it. */
module PathWalk {
  import opened Json

  const MAX_SYMLINKS: nat := 40

  /** A path with no symlink and no ".." in it, below "/". */
  type Place = seq<string>

  datatype Entry =
    | Dir(uid: nat, mode: bv16)
    | Link(luid: nat, target: string)
    | Other

  type Files = map<Place, Entry>

  // ---- the rules ----

  /** shared_dir_reason gives no reason: only root and `me` can rename or remove what is in it. */
  predicate DirPasses(uid: nat, mode: bv16, me: nat) {
    (uid == 0 || uid == me) && (mode & 0x12 == 0 || mode & 0x200 != 0)
  }

  /** shared_link_reason gives no reason. */
  predicate LinkPasses(uid: nat, inSticky: bool, me: nat) {
    inSticky ==> uid == 0 || uid == me
  }

  predicate Sticky(e: Entry) {
    e.Dir? && e.mode & 0x200 != 0
  }

  // ---- paths ----

  predicate IsAbsolute(text: string) {
    text != "" && text[0] == '/'
  }

  /** One more character. */
  function Grow(parts: seq<string>, c: char): (r: seq<string>)
    requires parts != []
    ensures r != []
  {
    if c == '/' then parts + [""] else parts[..|parts| - 1] + [parts[|parts| - 1] + [c]]
  }

  /** The parts between the slashes. */
  function Split(text: string): (parts: seq<string>)
    ensures parts != []
  {
    if text == "" then [""] else Grow(Split(text[..|text| - 1]), text[|text| - 1])
  }

  function Named(parts: seq<string>): (r: seq<string>)
    ensures forall p <- r :: p != "" && p != "."
  {
    if parts == [] then []
    else
      var last := parts[|parts| - 1];
      Named(parts[..|parts| - 1]) + if last == "" || last == "." then [] else [last]
  }

  /** walk_parts: names and "..", without "/" and ".". */
  function Parts(text: string): seq<string> {
    Named(Split(text))
  }

  function Parent(p: Place): Place {
    if p == [] then [] else p[..|p| - 1]
  }

  function Start(text: string, cur: Place): Place {
    if IsAbsolute(text) then [] else cur
  }

  // ---- pathname resolution ----

  /** What resolution looks at on its way: a dir it enters, or a symlink. */
  datatype Seen = SeenDir(at: Place) | SeenLink(at: Place)

  datatype Outcome =
    | Found(at: Place, left: nat)   // with `left` symlinks still allowed
    | Missing(at: Place)
    | NotADir(at: Place)
    | TooManyLinks

  datatype Walk = Walk(seen: seq<Seen>, outcome: Outcome)

  /** The resolution of the pathname with these parts, from the dir `cur`, with at most `links`
      symlinks: a name is looked up in the dir before it, ".." is the dir above ("/" for "/"), and
      a symlink stands for what its contents resolve to, from "/" or from the dir it is in. */
  function Resolve(fs: Files, cur: Place, parts: seq<string>, links: nat): (w: Walk)
    ensures w.outcome.Found? ==> w.outcome.left <= links
    decreases links, |parts|
  {
    if parts == [] then Walk([], Found(cur, links))
    else if parts[0] == ".." then Resolve(fs, Parent(cur), parts[1..], links)
    else
      var next := cur + [parts[0]];
      if next !in fs then Walk([], Missing(next))
      else
        match fs[next]
        case Dir(_, _) => Then([SeenDir(next)], Resolve(fs, next, parts[1..], links))
        case Other => Walk([], NotADir(next))
        case Link(_, target) =>
          if links == 0 then Walk([SeenLink(next)], TooManyLinks)
          else
            var sub := Resolve(fs, Start(target, cur), Parts(target), links - 1);
            if !sub.outcome.Found? then Then([SeenLink(next)], sub)
            else Then([SeenLink(next)], Then(sub.seen, Resolve(fs, sub.outcome.at, parts[1..], sub.outcome.left)))
  }

  function Then(seen: seq<Seen>, w: Walk): Walk {
    Walk(seen + w.seen, w.outcome)
  }

  /** A pathname resolves part by part. */
  function Onward(fs: Files, w: Walk, parts: seq<string>): Walk {
    if w.outcome.Found? then Then(w.seen, Resolve(fs, w.outcome.at, parts, w.outcome.left)) else w
  }

  lemma ThenThen(a: seq<Seen>, b: seq<Seen>, w: Walk)
    ensures Then(a, Then(b, w)) == Then(a + b, w)
  {
    assert a + (b + w.seen) == a + b + w.seen;
  }

  lemma OnwardThen(fs: Files, seen: seq<Seen>, w: Walk, parts: seq<string>)
    ensures Onward(fs, Then(seen, w), parts) == Then(seen, Onward(fs, w, parts))
  {
    if w.outcome.Found? { ThenThen(seen, w.seen, Resolve(fs, w.outcome.at, parts, w.outcome.left)); }
  }

  lemma {:induction false} ResolveJoined(fs: Files, cur: Place, a: seq<string>, b: seq<string>, links: nat)
    ensures Resolve(fs, cur, a + b, links) == Onward(fs, Resolve(fs, cur, a, links), b)
    decreases links, |a|
  {
    if a == [] {
      assert a + b == b;
      assert Then([], Resolve(fs, cur, b, links)) == Resolve(fs, cur, b, links);
    } else {
      assert (a + b)[0] == a[0] && (a + b)[1..] == a[1..] + b;
      var next := cur + [a[0]];
      if a[0] == ".." {
        ResolveJoined(fs, Parent(cur), a[1..], b, links);
      } else if next in fs {
        match fs[next]
        case Dir(_, _) =>
          ResolveJoined(fs, next, a[1..], b, links);
          OnwardThen(fs, [SeenDir(next)], Resolve(fs, next, a[1..], links), b);
        case Other =>
        case Link(_, target) =>
          if links > 0 {
            var sub := Resolve(fs, Start(target, cur), Parts(target), links - 1);
            if sub.outcome.Found? {
              ResolveJoined(fs, sub.outcome.at, a[1..], b, sub.outcome.left);
              var rest := Resolve(fs, sub.outcome.at, a[1..], sub.outcome.left);
              OnwardThen(fs, sub.seen, rest, b);
              OnwardThen(fs, [SeenLink(next)], Then(sub.seen, rest), b);
            }
          }
      }
    }
  }

  /** The same walk, with more symlinks left at its end. */
  predicate SameWalk(w: Walk, v: Walk, more: nat) {
    w.outcome.Found? && v.outcome == Found(w.outcome.at, w.outcome.left + more) && v.seen == w.seen
  }

  /** The number of symlinks allowed does not change where a pathname that resolves leads. */
  lemma {:induction false} MoreLinks(fs: Files, cur: Place, parts: seq<string>, links: nat, more: nat)
    requires Resolve(fs, cur, parts, links).outcome.Found?
    ensures SameWalk(Resolve(fs, cur, parts, links), Resolve(fs, cur, parts, links + more), more)
    decreases links, |parts|, 1
  {
    if parts != [] {
      var next := cur + [parts[0]];
      if parts[0] == ".." {
        MoreLinks(fs, Parent(cur), parts[1..], links, more);
        MoreAfterDir(fs, cur, parts, links, more);
      } else if next in fs && fs[next].Dir? {
        MoreLinks(fs, next, parts[1..], links, more);
        MoreAfterDir(fs, cur, parts, links, more);
      } else {
        OnlyLinkLeft(fs, cur, parts, links);
        MoreAtLink(fs, cur, parts, links, more, fs[next].target);
      }
    }
  }

  lemma {:induction false} MoreAtLink(fs: Files, cur: Place, parts: seq<string>, links: nat, more: nat, target: string)
    requires parts != [] && parts[0] != ".." && links > 0 && cur + [parts[0]] in fs && fs[cur + [parts[0]]].Link?
    requires target == fs[cur + [parts[0]]].target
    requires var sub := Resolve(fs, Start(target, cur), Parts(target), links - 1);
             sub.outcome.Found? && Resolve(fs, sub.outcome.at, parts[1..], sub.outcome.left).outcome.Found?
    ensures SameWalk(Resolve(fs, cur, parts, links), Resolve(fs, cur, parts, links + more), more)
    decreases links, |parts|, 0
  {
    var start, names, rest := Start(target, cur), Parts(target), parts[1..];
    var sub := Resolve(fs, start, names, links - 1);
    MoreLinks(fs, start, names, links - 1, more);
    MoreLinks(fs, sub.outcome.at, rest, sub.outcome.left, more);
    ResolveAtLink(fs, cur, parts, links);
    ResolveAtLink(fs, cur, parts, links + more);
    assert links + more - 1 == links - 1 + more;
    SameThen([SeenLink(cur + [parts[0]])], sub.seen, Resolve(fs, sub.outcome.at, rest, sub.outcome.left),
             Resolve(fs, sub.outcome.at, rest, sub.outcome.left + more), more);
  }

  lemma OnlyLinkLeft(fs: Files, cur: Place, parts: seq<string>, links: nat)
    requires parts != [] && parts[0] != ".." && Resolve(fs, cur, parts, links).outcome.Found?
    requires var next := cur + [parts[0]]; next in fs ==> !fs[next].Dir?
    ensures var next := cur + [parts[0]];
            && next in fs && fs[next].Link? && links > 0
            && var sub := Resolve(fs, Start(fs[next].target, cur), Parts(fs[next].target), links - 1);
               sub.outcome.Found? && Resolve(fs, sub.outcome.at, parts[1..], sub.outcome.left).outcome.Found?
  {
  }

  lemma MoreAfterDir(fs: Files, cur: Place, parts: seq<string>, links: nat, more: nat)
    requires parts != []
    requires parts[0] == ".." ==>
               SameWalk(Resolve(fs, Parent(cur), parts[1..], links), Resolve(fs, Parent(cur), parts[1..], links + more), more)
    requires var next := cur + [parts[0]];
             parts[0] != ".." ==>
               (next in fs && fs[next].Dir?
                && SameWalk(Resolve(fs, next, parts[1..], links), Resolve(fs, next, parts[1..], links + more), more))
    ensures SameWalk(Resolve(fs, cur, parts, links), Resolve(fs, cur, parts, links + more), more)
  {
  }

  lemma ResolveAtLink(fs: Files, cur: Place, parts: seq<string>, links: nat)
    requires parts != [] && parts[0] != ".." && links > 0 && cur + [parts[0]] in fs && fs[cur + [parts[0]]].Link?
    ensures var next := cur + [parts[0]];
            var sub := Resolve(fs, Start(fs[next].target, cur), Parts(fs[next].target), links - 1);
            Resolve(fs, cur, parts, links) ==
            if !sub.outcome.Found? then Then([SeenLink(next)], sub)
            else Then([SeenLink(next)], Then(sub.seen, Resolve(fs, sub.outcome.at, parts[1..], sub.outcome.left)))
  {
  }

  lemma SameThen(a: seq<Seen>, b: seq<Seen>, w: Walk, v: Walk, more: nat)
    requires SameWalk(w, v, more)
    ensures SameWalk(Then(a, Then(b, w)), Then(a, Then(b, v)), more)
  {
  }

  // ---- the judgment ----

  datatype Refusal =
    | NotAbsolute
    | BadDir(at: Place)
    | BadLink(at: Place)
    | Gone(at: Place)
    | NotDir(at: Place)
    | TooMany

  /** What the rules say of one thing seen. */
  function Objection(fs: Files, me: nat, s: Seen): Option<Refusal> {
    if s.at !in fs then None
    else
      match (s, fs[s.at])
      case (SeenDir(at), Dir(uid, mode)) => if DirPasses(uid, mode, me) then None else Some(BadDir(at))
      case (SeenLink(at), Link(uid, _)) =>
        if LinkPasses(uid, Parent(at) in fs && Sticky(fs[Parent(at)]), me) then None else Some(BadLink(at))
      case _ => None
  }

  function FirstObjection(fs: Files, me: nat, seen: seq<Seen>): Option<Refusal>
    decreases |seen|
  {
    if seen == [] then None
    else if Objection(fs, me, seen[0]).Some? then Objection(fs, me, seen[0])
    else FirstObjection(fs, me, seen[1..])
  }

  /** What check_path_dirs has to answer, when resolution goes this way. */
  function Judge(fs: Files, me: nat, missingOk: bool, w: Walk): Option<Refusal> {
    var objection := FirstObjection(fs, me, w.seen);
    if objection.Some? then objection
    else
      match w.outcome
      case Found(_, _) => None
      case Missing(at) => if missingOk then None else Some(Gone(at))
      case NotADir(at) => Some(NotDir(at))
      case TooManyLinks => Some(TooMany)
  }

  lemma {:induction false} ObjectionLater(fs: Files, me: nat, a: seq<Seen>, b: seq<Seen>)
    ensures FirstObjection(fs, me, a + b) ==
            if FirstObjection(fs, me, a).Some? then FirstObjection(fs, me, a) else FirstObjection(fs, me, b)
    decreases |a|
  {
    if a == [] {
      assert a + b == b;
    } else {
      assert (a + b)[0] == a[0] && (a + b)[1..] == a[1..] + b;
      ObjectionLater(fs, me, a[1..], b);
    }
  }

  lemma JudgeLater(fs: Files, me: nat, missingOk: bool, seen: seq<Seen>, w: Walk)
    requires FirstObjection(fs, me, seen).None?
    ensures Judge(fs, me, missingOk, Then(seen, w)) == Judge(fs, me, missingOk, w)
  {
    ObjectionLater(fs, me, seen, w.seen);
  }

  // ---- what the rules are for ----

  predicate HasRoot(fs: Files) {
    [] in fs && fs[[]].Dir?
  }

  /** The user may write to a dir of this owner and mode, if need be after changing its mode;
      `member` says whether the user is in the dir's group. */
  predicate MayWrite(u: nat, member: bool, uid: nat, mode: bv16) {
    u == uid || (if member then mode & 0x10 != 0 else mode & 0x2 != 0)
  }

  /** The user may rename or remove an entry of this owner in such a dir: in a sticky one only the
      owner of either may. */
  predicate MayReplace(u: nat, member: bool, uid: nat, mode: bv16, owner: nat) {
    MayWrite(u, member, uid, mode) && (mode & 0x200 == 0 || u == owner || u == uid)
  }

  /** Nobody but root and `me` may rename or remove the entry. */
  ghost predicate Fixed(me: nat, uid: nat, mode: bv16, owner: nat) {
    forall u: nat, member: bool | u != 0 && u != me :: !MayReplace(u, member, uid, mode, owner)
  }

  lemma WriteBits(mode: bv16)
    ensures mode & 0x12 == 0 <==> mode & 0x10 == 0 && mode & 0x2 == 0
  {
  }

  /** shared_dir_reason is exact: a dir passes when, and only when, nobody but root and `me` can
      rename or remove what root or `me` owns in it. */
  lemma DirPassesIff(uid: nat, mode: bv16, me: nat)
    ensures DirPasses(uid, mode, me) <==> Fixed(me, uid, mode, 0) && Fixed(me, uid, mode, me)
  {
    WriteBits(mode);
    if uid != 0 && uid != me {
      assert MayReplace(uid, false, uid, mode, 0);
    } else if mode & 0x12 != 0 && mode & 0x200 == 0 {
      assert MayReplace(me + 1, mode & 0x10 != 0, uid, mode, 0) || me + 1 == uid;
    }
  }

  /** shared_link_reason: in a dir that passes, a symlink that passes is fixed; one that does not
      can be replaced by its owner, if others can write to the dir at all. */
  lemma LinkPassesIff(uid: nat, mode: bv16, luid: nat, me: nat)
    requires DirPasses(uid, mode, me)
    ensures Fixed(me, uid, mode, luid) <==> LinkPasses(luid, mode & 0x200 != 0, me) || mode & 0x12 == 0
  {
    WriteBits(mode);
    if !LinkPasses(luid, mode & 0x200 != 0, me) && mode & 0x12 != 0 {
      assert MayReplace(luid, mode & 0x10 != 0, uid, mode, luid);
    }
  }

  function OwnerOf(e: Entry): nat
    requires !e.Other?
  {
    if e.Dir? then e.uid else e.luid
  }

  predicate IsSeen(fs: Files, s: Seen) {
    s.at != [] && s.at in fs && (if s.SeenDir? then fs[s.at].Dir? else fs[s.at].Link?)
  }

  /** The dirs entered, and those `known` before. */
  function Entered(known: set<Place>, seen: seq<Seen>): set<Place> {
    known + set s | s in seen && s.SeenDir? :: s.at
  }

  ghost predicate HasParents(places: set<Place>) {
    [] in places && forall p <- places :: Parent(p) in places
  }

  lemma EnteredTwice(known: set<Place>, a: seq<Seen>, b: seq<Seen>)
    ensures Entered(Entered(known, a), b) == Entered(known, a + b)
  {
  }

  /** Everything seen is what it was seen as, in a dir entered or known, and so is the end. */
  ghost predicate Within(fs: Files, w: Walk, known: set<Place>) {
    && HasParents(Entered(known, w.seen))
    && (forall s <- w.seen :: IsSeen(fs, s) && Parent(s.at) in Entered(known, w.seen))
    && (w.outcome.Found? ==> w.outcome.at in Entered(known, w.seen))
  }

  lemma WithinNothing(fs: Files, w: Walk, known: set<Place>)
    requires w.seen == [] && HasParents(known) && (w.outcome.Found? ==> w.outcome.at in known)
    ensures Within(fs, w, known)
  {
    assert Entered(known, []) == known;
  }

  lemma WithinDir(fs: Files, next: Place, w: Walk, known: set<Place>)
    requires Within(fs, w, known + {next}) && IsSeen(fs, SeenDir(next)) && Parent(next) in known
    ensures Within(fs, Then([SeenDir(next)], w), known)
  {
    EnteredDir(known, next, w.seen);
  }

  lemma WithinLink(fs: Files, next: Place, w: Walk, known: set<Place>)
    requires Within(fs, w, known) && IsSeen(fs, SeenLink(next)) && Parent(next) in known
    ensures Within(fs, Then([SeenLink(next)], w), known)
  {
    EnteredLink(known, next, w.seen);
  }

  lemma WithinOnward(fs: Files, sub: Walk, rest: Walk, known: set<Place>)
    requires Within(fs, sub, known) && Within(fs, rest, Entered(known, sub.seen))
    ensures Within(fs, Then(sub.seen, rest), known)
  {
    EnteredTwice(known, sub.seen, rest.seen);
  }

  /** Whatever resolution looks at is in a dir it entered before, or started from. */
  lemma {:induction false} SeenInEntered(fs: Files, cur: Place, parts: seq<string>, links: nat, known: set<Place>)
    requires HasParents(known) && cur in known
    ensures Within(fs, Resolve(fs, cur, parts, links), known)
    decreases links, |parts|
  {
    if parts == [] {
      WithinNothing(fs, Resolve(fs, cur, parts, links), known);
    } else if parts[0] == ".." {
      SeenInEntered(fs, Parent(cur), parts[1..], links, known);
    } else {
      var next := cur + [parts[0]];
      assert Parent(next) == cur;
      if next !in fs || fs[next].Other? {
        WithinNothing(fs, Resolve(fs, cur, parts, links), known);
      } else if fs[next].Dir? {
        SeenInEntered(fs, next, parts[1..], links, known + {next});
        WithinDir(fs, next, Resolve(fs, next, parts[1..], links), known);
      } else if links == 0 {
        WithinNothing(fs, Walk([], TooManyLinks), known);
        WithinLink(fs, next, Walk([], TooManyLinks), known);
        assert [SeenLink(next)] + [] == [SeenLink(next)];
      } else {
        var target := fs[next].target;
        SeenInEntered(fs, Start(target, cur), Parts(target), links - 1, known);
        var sub := Resolve(fs, Start(target, cur), Parts(target), links - 1);
        if sub.outcome.Found? {
          SeenInEntered(fs, sub.outcome.at, parts[1..], sub.outcome.left, Entered(known, sub.seen));
          var rest := Resolve(fs, sub.outcome.at, parts[1..], sub.outcome.left);
          WithinOnward(fs, sub, rest, known);
          WithinLink(fs, next, Then(sub.seen, rest), known);
        } else {
          WithinLink(fs, next, sub, known);
        }
      }
    }
  }

  lemma EnteredDir(known: set<Place>, next: Place, rest: seq<Seen>)
    ensures Entered(known, [SeenDir(next)] + rest) == Entered(known + {next}, rest)
  {
    assert SeenDir(next) in [SeenDir(next)] + rest;
  }

  lemma EnteredLink(known: set<Place>, next: Place, rest: seq<Seen>)
    ensures Entered(known, [SeenLink(next)] + rest) == Entered(known, rest)
  {
  }

  lemma {:induction false} NoObjection(fs: Files, me: nat, seen: seq<Seen>, s: Seen)
    requires FirstObjection(fs, me, seen).None? && s in seen
    ensures Objection(fs, me, s).None?
    decreases |seen|
  {
    if s != seen[0] { NoObjection(fs, me, seen[1..], s); }
  }

  /** Every step of the way stays what it is, as far as users other than root and `me` go: the dir it
      is in is one they cannot rename or remove it from. */
  ghost predicate Steady(fs: Files, me: nat, seen: seq<Seen>) {
    forall s <- seen ::
      && IsSeen(fs, s) && Parent(s.at) in fs && fs[Parent(s.at)].Dir?
      && Fixed(me, fs[Parent(s.at)].uid, fs[Parent(s.at)].mode, OwnerOf(fs[s.at]))
  }

  lemma StepIsFixed(fs: Files, me: nat, s: Seen)
    requires IsSeen(fs, s) && Objection(fs, me, s).None?
    requires Parent(s.at) in fs && fs[Parent(s.at)].Dir? && DirPasses(fs[Parent(s.at)].uid, fs[Parent(s.at)].mode, me)
    ensures Fixed(me, fs[Parent(s.at)].uid, fs[Parent(s.at)].mode, OwnerOf(fs[s.at]))
  {
    var uid, mode := fs[Parent(s.at)].uid, fs[Parent(s.at)].mode;
    DirPassesIff(uid, mode, me);
    if s.SeenLink? { LinkPassesIff(uid, mode, fs[s.at].luid, me); }
  }

  /** What check_path_dirs is for: on a path it accepts, nobody but root and `me` can put another dir
      or symlink in the place of one that leads there. */
  lemma AcceptedIsSteady(fs: Files, me: nat, missingOk: bool, parts: seq<string>, links: nat)
    requires HasRoot(fs) && Judge(fs, me, missingOk, Then([SeenDir([])], Resolve(fs, [], parts, links))).None?
    ensures Steady(fs, me, Resolve(fs, [], parts, links).seen)
  {
    var seen := Resolve(fs, [], parts, links).seen;
    SeenInEntered(fs, [], parts, links, {[]});
    forall s | s in seen
      ensures Objection(fs, me, s).None? && Parent(s.at) in fs && fs[Parent(s.at)].Dir?
      ensures DirPasses(fs[Parent(s.at)].uid, fs[Parent(s.at)].mode, me)
    {
      NoObjection(fs, me, [SeenDir([])] + seen, s);
      var above := Parent(s.at);
      assert SeenDir(above) in [SeenDir([])] + seen by {
        if above == [] { assert ([SeenDir([])] + seen)[0] == SeenDir([]); } else { assert SeenDir(above) in seen; }
      }
      NoObjection(fs, me, [SeenDir([])] + seen, SeenDir(above));
    }
    forall s | s in seen ensures Fixed(me, fs[Parent(s.at)].uid, fs[Parent(s.at)].mode, OwnerOf(fs[s.at])) {
      StepIsFixed(fs, me, s);
    }
  }

  // ---- the walk ----

  function Reverse(s: seq<string>): (r: seq<string>)
    ensures |r| == |s|
  {
    if s == [] then [] else [s[|s| - 1]] + Reverse(s[..|s| - 1])
  }

  lemma {:induction false} ReverseJoined(a: seq<string>, b: seq<string>)
    ensures Reverse(a + b) == Reverse(b) + Reverse(a)
    decreases |b|
  {
    if b == [] {
      assert a + b == a && Reverse(b) + Reverse(a) == Reverse(a);
    } else {
      assert (a + b)[|a + b| - 1] == b[|b| - 1];
      assert (a + b)[..|a + b| - 1] == a + b[..|b| - 1];
      ReverseJoined(a, b[..|b| - 1]);
    }
  }

  lemma {:induction false} ReverseTwice(s: seq<string>)
    ensures Reverse(Reverse(s)) == s
    decreases |s|
  {
    if s != [] {
      ReverseJoined([s[|s| - 1]], Reverse(s[..|s| - 1]));
      ReverseTwice(s[..|s| - 1]);
      assert Reverse([s[|s| - 1]]) == [s[|s| - 1]];
    }
  }

  /** Every dir down to `p` is a dir that passes. */
  predicate Checked(fs: Files, me: nat, p: Place) {
    forall k | 0 <= k <= |p| ::
      p[..k] in fs && fs[p[..k]].Dir? && DirPasses(fs[p[..k]].uid, fs[p[..k]].mode, me)
  }

  /** On the way: what was seen passes, and the rest of the walk is the resolution of what is
      still to do from where the walk is. */
  ghost predicate OnTheWay(fs: Files, me: nat, total: Walk, done: seq<Seen>, cur: Place, parts: seq<string>, links: nat) {
    FirstObjection(fs, me, done).None? && total == Then(done, Resolve(fs, cur, parts, links))
  }

  lemma StepUp(fs: Files, me: nat, total: Walk, done: seq<Seen>, cur: Place, parts: seq<string>, links: nat)
    requires OnTheWay(fs, me, total, done, cur, parts, links) && parts != [] && parts[0] == ".."
    ensures OnTheWay(fs, me, total, done, Parent(cur), parts[1..], links)
  {
  }

  lemma StepDir(fs: Files, me: nat, total: Walk, done: seq<Seen>, cur: Place, parts: seq<string>, links: nat)
    requires OnTheWay(fs, me, total, done, cur, parts, links) && parts != [] && parts[0] != ".."
    requires var next := cur + [parts[0]]; next in fs && fs[next].Dir? && DirPasses(fs[next].uid, fs[next].mode, me)
    ensures var next := cur + [parts[0]]; OnTheWay(fs, me, total, done + [SeenDir(next)], next, parts[1..], links)
  {
    var next := cur + [parts[0]];
    ThenThen(done, [SeenDir(next)], Resolve(fs, next, parts[1..], links));
    ObjectionLater(fs, me, done, [SeenDir(next)]);
  }

  lemma StepLink(fs: Files, me: nat, total: Walk, done: seq<Seen>, cur: Place, parts: seq<string>, links: nat)
    requires OnTheWay(fs, me, total, done, cur, parts, links + 1) && parts != [] && parts[0] != ".."
    requires cur in fs
    requires var next := cur + [parts[0]]; next in fs && fs[next].Link? && LinkPasses(fs[next].luid, Sticky(fs[cur]), me)
    ensures var next := cur + [parts[0]];
            var target := fs[next].target;
            OnTheWay(fs, me, total, done + [SeenLink(next)], Start(target, cur), Parts(target) + parts[1..], links)
  {
    var next := cur + [parts[0]];
    var target := fs[next].target;
    assert Parent(next) == cur;
    assert parts == [parts[0]] + parts[1..];
    ResolveLink(fs, cur, parts[0], target, parts[1..], links);
    ThenThen(done, [SeenLink(next)], Resolve(fs, Start(target, cur), Parts(target) + parts[1..], links));
    ObjectionLater(fs, me, done, [SeenLink(next)]);
  }

  /** What stops the walk at its next part, if anything does. */
  function Stop(fs: Files, me: nat, missingOk: bool, cur: Place, part: string, links: nat): Option<Option<Refusal>> {
    var next := cur + [part];
    if part == ".." then None
    else if next !in fs then Some(if missingOk then None else Some(Gone(next)))
    else
      match fs[next]
      case Link(uid, _) =>
        if !LinkPasses(uid, cur in fs && Sticky(fs[cur]), me) then Some(Some(BadLink(next)))
        else if links == 0 then Some(Some(TooMany))
        else None
      case Other => Some(Some(NotDir(next)))
      case Dir(uid, mode) => if DirPasses(uid, mode, me) then None else Some(Some(BadDir(next)))
  }

  lemma Stops(fs: Files, me: nat, missingOk: bool, total: Walk, done: seq<Seen>, cur: Place, parts: seq<string>, links: nat)
    requires OnTheWay(fs, me, total, done, cur, parts, links) && parts != []
    ensures var stop := Stop(fs, me, missingOk, cur, parts[0], links);
            stop.Some? ==> Judge(fs, me, missingOk, total) == stop.value
  {
    if Stop(fs, me, missingOk, cur, parts[0], links).Some? {
      StopsHere(fs, me, missingOk, total, done, cur, parts, links);
    }
  }

  lemma StopsHere(fs: Files, me: nat, missingOk: bool, total: Walk, done: seq<Seen>, cur: Place, parts: seq<string>, links: nat)
    requires OnTheWay(fs, me, total, done, cur, parts, links) && parts != []
    requires Stop(fs, me, missingOk, cur, parts[0], links).Some?
    ensures Judge(fs, me, missingOk, total) == Stop(fs, me, missingOk, cur, parts[0], links).value
  {
    var next := cur + [parts[0]];
    var w := Resolve(fs, cur, parts, links);
    assert Parent(next) == cur;
    JudgeLater(fs, me, missingOk, done, w);
    if next in fs {
      match fs[next]
      case Link(uid, _) =>
        if LinkPasses(uid, cur in fs && Sticky(fs[cur]), me) {
          assert w == Walk([SeenLink(next)], TooManyLinks);
          assert FirstObjection(fs, me, [SeenLink(next)]).None?;
        } else {
          ObjectionFirst(fs, me, SeenLink(next), w);
        }
      case Other =>
      case Dir(_, _) => ObjectionFirst(fs, me, SeenDir(next), w);
    }
  }

  lemma Arrives(fs: Files, me: nat, missingOk: bool, total: Walk, done: seq<Seen>, cur: Place, links: nat)
    requires OnTheWay(fs, me, total, done, cur, [], links)
    ensures Judge(fs, me, missingOk, total) == None && total.outcome == Found(cur, links)
  {
    JudgeLater(fs, me, missingOk, done, Resolve(fs, cur, [], links));
  }

  /** check_path_dirs. None says that the path passes, and `at` is then where the walk ended. */
  method CheckPathDirs(fs: Files, dir: string, me: nat, missingOk: bool) returns (r: Option<Refusal>, at: Place)
    requires HasRoot(fs)
    ensures r == if !IsAbsolute(dir) then Some(NotAbsolute)
                 else Judge(fs, me, missingOk, Then([SeenDir([])], Resolve(fs, [], Parts(dir), MAX_SYMLINKS)))
    ensures r.None? ==> Checked(fs, me, at) && Steady(fs, me, Resolve(fs, [], Parts(dir), MAX_SYMLINKS).seen)
    ensures r.None? && !missingOk ==> exists left :: Resolve(fs, [], Parts(dir), MAX_SYMLINKS).outcome == Found(at, left)
  {
    if !IsAbsolute(dir) {
      return Some(NotAbsolute), [];
    }
    ghost var whole := Resolve(fs, [], Parts(dir), MAX_SYMLINKS);
    if !DirPasses(fs[[]].uid, fs[[]].mode, me) {
      ObjectionFirst(fs, me, SeenDir([]), Then([SeenDir([])], whole));
      return Some(BadDir([])), [];
    }
    assert FirstObjection(fs, me, [SeenDir([])]).None?;
    r, at := WalkParts(fs, Parts(dir), me, missingOk, Then([SeenDir([])], whole));
    if r.None? { AcceptedIsSteady(fs, me, missingOk, Parts(dir), MAX_SYMLINKS); }
  }

  /** The walk from "/". */
  method WalkParts(fs: Files, parts: seq<string>, me: nat, missingOk: bool, ghost total: Walk)
    returns (r: Option<Refusal>, at: Place)
    requires HasRoot(fs) && DirPasses(fs[[]].uid, fs[[]].mode, me)
    requires OnTheWay(fs, me, total, [SeenDir([])], [], parts, MAX_SYMLINKS)
    ensures r == Judge(fs, me, missingOk, total)
    ensures r.None? ==> Checked(fs, me, at)
    ensures r.None? && !missingOk ==> total.outcome.Found? && total.outcome.at == at
  {
    ghost var done: seq<Seen> := [SeenDir([])];
    // the parts still to walk, the next one last
    var todo := Reverse(parts);
    ReverseTwice(parts);
    var cur: Place := [];
    var curSticky := Sticky(fs[[]]);
    var links := 0;
    while todo != []
      invariant links <= MAX_SYMLINKS
      invariant Checked(fs, me, cur) && cur in fs && curSticky == Sticky(fs[cur])
      invariant OnTheWay(fs, me, total, done, cur, Reverse(todo), MAX_SYMLINKS - links)
      decreases MAX_SYMLINKS - links, |todo|
    {
      ghost var ahead := Ahead(cur, Reverse(todo), MAX_SYMLINKS - links);
      var stop;
      stop, cur, curSticky, todo, links := TakePart(fs, me, missingOk, cur, curSticky, todo, links);
      Stops(fs, me, missingOk, total, done, ahead.cur, ahead.parts, ahead.links);
      if stop.Some? {
        return stop.value, cur;
      }
      done := Steps(fs, me, missingOk, total, done, ahead);
    }
    Arrives(fs, me, missingOk, total, done, cur, MAX_SYMLINKS - links);
    r, at := None, cur;
  }

  /** Where the walk is, the parts that are left, and the symlinks still allowed. */
  datatype Ahead = Ahead(cur: Place, parts: seq<string>, links: nat)

  /** One part further, when nothing stops the walk. */
  function Advance(fs: Files, a: Ahead): Ahead
    requires a.parts != []
  {
    var next := a.cur + [a.parts[0]];
    if a.parts[0] == ".." then Ahead(Parent(a.cur), a.parts[1..], a.links)
    else if next in fs && fs[next].Link? && a.links > 0 then
      Ahead(Start(fs[next].target, a.cur), Parts(fs[next].target) + a.parts[1..], a.links - 1)
    else Ahead(next, a.parts[1..], a.links)
  }

  lemma Steps(fs: Files, me: nat, missingOk: bool, total: Walk, done: seq<Seen>, a: Ahead) returns (more: seq<Seen>)
    requires OnTheWay(fs, me, total, done, a.cur, a.parts, a.links) && a.parts != [] && a.cur in fs
    requires Stop(fs, me, missingOk, a.cur, a.parts[0], a.links).None?
    ensures var b := Advance(fs, a); OnTheWay(fs, me, total, more, b.cur, b.parts, b.links)
  {
    var next := a.cur + [a.parts[0]];
    more := done;
    if a.parts[0] == ".." {
      StepUp(fs, me, total, done, a.cur, a.parts, a.links);
    } else if fs[next].Link? {
      StepLink(fs, me, total, done, a.cur, a.parts, a.links - 1);
      more := done + [SeenLink(next)];
    } else {
      StepDir(fs, me, total, done, a.cur, a.parts, a.links);
      more := done + [SeenDir(next)];
    }
  }

  /** One round of the walk: the next part is checked, and entered or followed. */
  method TakePart(fs: Files, me: nat, missingOk: bool, was: Place, wasSticky: bool, left: seq<string>, followed: nat)
    returns (stop: Option<Option<Refusal>>, cur: Place, curSticky: bool, todo: seq<string>, links: nat)
    requires HasRoot(fs) && left != [] && followed <= MAX_SYMLINKS
    requires Checked(fs, me, was) && was in fs && wasSticky == Sticky(fs[was])
    ensures Reverse(left) != [] && stop == Stop(fs, me, missingOk, was, Reverse(left)[0], MAX_SYMLINKS - followed)
    ensures Checked(fs, me, cur) && cur in fs && curSticky == Sticky(fs[cur])
    ensures stop.None? ==>
              && links <= MAX_SYMLINKS && (links > followed || (links == followed && |todo| < |left|))
              && Ahead(cur, Reverse(todo), MAX_SYMLINKS - links) ==
                 Advance(fs, Ahead(was, Reverse(left), MAX_SYMLINKS - followed))
  {
    cur, curSticky, links := was, wasSticky, followed;
    var part := left[|left| - 1];
    todo := left[..|left| - 1];
    assert Reverse(left)[0] == part && Reverse(left)[1..] == Reverse(todo);
    stop := None;
    var next := cur + [part];
    if part == ".." {
      CheckedParent(fs, me, cur);
      cur := Parent(cur);
      curSticky := Sticky(fs[cur]);
    } else if next !in fs {
      stop := Some(if missingOk then None else Some(Gone(next)));
    } else if fs[next].Link? {
      if !LinkPasses(fs[next].luid, curSticky, me) {
        stop := Some(Some(BadLink(next)));
        return;
      }
      links := links + 1;
      if links > MAX_SYMLINKS {
        stop := Some(Some(TooMany));
        return;
      }
      CheckedAbove(fs, me, cur, 0);
      cur, curSticky, todo := FollowLink(fs, fs[next].target, cur, curSticky, todo);
    } else if fs[next].Other? {
      stop := Some(Some(NotDir(next)));
    } else if !DirPasses(fs[next].uid, fs[next].mode, me) {
      stop := Some(Some(BadDir(next)));
    } else {
      CheckedBelow(fs, me, cur, part);
      cur := next;
      curSticky := Sticky(fs[next]);
    }
  }

  /** The walk goes on with what the link holds, from "/" or from where it is. */
  method FollowLink(fs: Files, target: string, was: Place, wasSticky: bool, todo: seq<string>)
    returns (cur: Place, curSticky: bool, more: seq<string>)
    requires HasRoot(fs) && was in fs && wasSticky == Sticky(fs[was])
    ensures cur == Start(target, was) && cur in fs && curSticky == Sticky(fs[cur])
    ensures Reverse(more) == Parts(target) + Reverse(todo)
  {
    cur, curSticky := was, wasSticky;
    if IsAbsolute(target) {
      cur := [];
      curSticky := Sticky(fs[[]]);
    }
    more := todo + Reverse(Parts(target));
    ReverseJoined(todo, Reverse(Parts(target)));
    ReverseTwice(Parts(target));
  }

  lemma ObjectionFirst(fs: Files, me: nat, s: Seen, w: Walk)
    requires w.seen != [] && w.seen[0] == s && Objection(fs, me, s).Some?
    ensures FirstObjection(fs, me, w.seen) == Objection(fs, me, s)
  {
  }

  /** A symlink and what comes after it resolve as its contents and what comes after it. */
  lemma ResolveLink(fs: Files, cur: Place, part: string, target: string, rest: seq<string>, links: nat)
    requires part != ".." && cur + [part] in fs && fs[cur + [part]].Link? && fs[cur + [part]].target == target
    ensures Resolve(fs, cur, [part] + rest, links + 1) ==
            Then([SeenLink(cur + [part])], Resolve(fs, Start(target, cur), Parts(target) + rest, links))
  {
    assert ([part] + rest)[1..] == rest;
    ResolveJoined(fs, Start(target, cur), Parts(target), rest, links);
  }

  lemma GrowJoined(a: seq<string>, b: seq<string>, c: char)
    requires b != []
    ensures Grow(a + b, c) == a + Grow(b, c)
  {
    assert (a + b)[..|a + b| - 1] == a + b[..|b| - 1];
  }

  lemma SplitLast(t: string, b: string)
    requires b != ""
    ensures Split(t + b) == Grow(Split(t + b[..|b| - 1]), b[|b| - 1])
  {
    assert (t + b)[..|t + b| - 1] == t + b[..|b| - 1];
  }

  lemma {:induction false} SplitJoined(a: string, b: string)
    ensures Split(a + "/" + b) == Split(a) + Split(b)
    decreases |b|
  {
    if b == "" {
      SplitLast(a, "/");
      assert "/"[..0] == "" && a + "" == a;
      assert a + "/" + b == a + "/";
    } else {
      SplitJoined(a, b[..|b| - 1]);
      SplitLast(a + "/", b);
      GrowJoined(Split(a), Split(b[..|b| - 1]), b[|b| - 1]);
    }
  }

  lemma {:induction false} NamedJoined(a: seq<string>, b: seq<string>)
    ensures Named(a + b) == Named(a) + Named(b)
    decreases |b|
  {
    if b == [] {
      assert a + b == a;
    } else {
      assert (a + b)[..|a + b| - 1] == a + b[..|b| - 1];
      NamedJoined(a, b[..|b| - 1]);
    }
  }

  /** Section 4.13's way with a symlink, on the text: the remaining pathname is prefixed by the
      contents of the link, and the result is resolved from "/" or from the dir the link is in. */
  lemma LinkSpliced(fs: Files, cur: Place, part: string, remaining: string, links: nat)
    requires part != ".." && cur + [part] in fs && fs[cur + [part]].Link?
    ensures var target := fs[cur + [part]].target;
            Resolve(fs, cur, [part] + Parts(remaining), links + 1) ==
            Then([SeenLink(cur + [part])], Resolve(fs, Start(target, cur), Parts(target + "/" + remaining), links))
  {
    var target := fs[cur + [part]].target;
    SplitJoined(target, remaining);
    NamedJoined(Split(target), Split(remaining));
    ResolveLink(fs, cur, part, target, Parts(remaining), links);
  }

  lemma CheckedAbove(fs: Files, me: nat, p: Place, n: nat)
    requires Checked(fs, me, p) && n <= |p|
    ensures Checked(fs, me, p[..n])
  {
    forall k | 0 <= k <= n ensures p[..n][..k] in fs && fs[p[..n][..k]].Dir?
      && DirPasses(fs[p[..n][..k]].uid, fs[p[..n][..k]].mode, me)
    {
      assert p[..n][..k] == p[..k];
    }
  }

  lemma CheckedParent(fs: Files, me: nat, p: Place)
    requires Checked(fs, me, p)
    ensures Checked(fs, me, Parent(p)) && Parent(p) in fs
  {
    CheckedAbove(fs, me, p, |Parent(p)|);
    assert p[..|Parent(p)|] == Parent(p) && Parent(p)[..|Parent(p)|] == Parent(p);
  }

  lemma CheckedBelow(fs: Files, me: nat, p: Place, part: string)
    requires Checked(fs, me, p)
    requires p + [part] in fs && fs[p + [part]].Dir? && DirPasses(fs[p + [part]].uid, fs[p + [part]].mode, me)
    ensures Checked(fs, me, p + [part])
  {
    var q := p + [part];
    forall k | 0 <= k <= |q| ensures q[..k] in fs && fs[q[..k]].Dir? && DirPasses(fs[q[..k]].uid, fs[q[..k]].mode, me) {
      if k <= |p| { assert q[..k] == p[..k]; } else { assert q[..k] == q; }
    }
  }
}
