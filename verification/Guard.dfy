/** The guard that stops a dead backend's kernels, and the pipe that tells it which they are
    (core/src/guard.rs). */
module Guard {
  import opened Decimal
  import opened Json

  /** A process group id, an i32. */
  const I32_MAX: nat := 0x7FFF_FFFF
  /** Milliseconds. */
  type Time = nat

  const RESPAWN_WINDOW: Time := 60000
  const RESPAWN_MAX: nat := 5

  // ---- lines ----

  datatype Change = Add(g: nat) | Remove(g: nat)

  /** trim_end_matches of line ends */
  function Trimmed(line: string): string {
    if line != "" && (line[|line| - 1] == '\n' || line[|line| - 1] == '\r') then Trimmed(line[..|line| - 1]) else line
  }

  /** parse_line */
  function ParseLine(line: string): Option<Change> {
    var s := Trimmed(line);
    if !("+ " <= s || "- " <= s) then None
    else
      var num := s[2..];
      if num == "" || !AllDigits(num) || !(1 < ValueOf(num) <= I32_MAX) then None
      else Some(if "+ " <= s then Add(ValueOf(num)) else Remove(ValueOf(num)))
  }

  function Line(c: Change): string {
    (if c.Add? then "+ " else "- ") + Digits(c.g) + "\n"
  }

  /** A group the backend registers. */
  predicate Group(g: nat) {
    1 < g <= I32_MAX
  }

  /** Reading a printed line gives back what was printed, for every group id. */
  lemma PrintedLineParses(c: Change)
    requires Group(c.g)
    ensures ParseLine(Line(c)) == Some(c)
  {
    var body := (if c.Add? then "+ " else "- ") + Digits(c.g);
    var digits := Digits(c.g);
    assert Line(c) == body + "\n" && Line(c)[..|Line(c)| - 1] == body;
    assert body[|body| - 1] == digits[|digits| - 1] && digits[|digits| - 1] in digits;
    assert Trimmed(Line(c)) == Trimmed(body) == body;
    assert body[2..] == digits;
    assert body[0] == if c.Add? then '+' else '-';
    PrintedParses(c.g);
  }

  predicate LineEnds(s: string) {
    forall i | 0 <= i < |s| :: s[i] == '\n' || s[i] == '\r'
  }

  /** The line is the sign, a group id in decimal digits, and line ends. */
  predicate Says(line: string, c: Change, digits: string, ends: string) {
    && line == (if c.Add? then "+ " else "- ") + digits + ends && LineEnds(ends)
    && digits != "" && AllDigits(digits) && ValueOf(digits) == c.g && Group(c.g)
  }

  lemma {:induction false} TrimmedEnds(line: string) returns (ends: string)
    ensures line == Trimmed(line) + ends && LineEnds(ends)
  {
    if line != "" && (line[|line| - 1] == '\n' || line[|line| - 1] == '\r') {
      ends := TrimmedEnds(line[..|line| - 1]);
      assert line == Trimmed(line) + (ends + [line[|line| - 1]]);
      ends := ends + [line[|line| - 1]];
    } else {
      ends := "";
    }
  }

  lemma {:induction false} TrimsEnds(body: string, ends: string)
    requires LineEnds(ends) && body != "" && body[|body| - 1] != '\n' && body[|body| - 1] != '\r'
    ensures Trimmed(body + ends) == body
    decreases |ends|
  {
    if ends == "" {
      assert body + ends == body;
    } else {
      TrimsEnds(body, ends[..|ends| - 1]);
      assert (body + ends)[..|body + ends| - 1] == body + ends[..|ends| - 1];
    }
  }

  /** A line reads as a change exactly when it says it so. */
  lemma ParsesIff(line: string, c: Change)
    ensures ParseLine(line) == Some(c) <==> exists digits, ends :: Says(line, c, digits, ends)
  {
    if ParseLine(line) == Some(c) {
      var ends := TrimmedEnds(line);
      var s := Trimmed(line);
      assert s == (if c.Add? then "+ " else "- ") + s[2..];
      assert Says(line, c, s[2..], ends);
    }
    if exists digits, ends :: Says(line, c, digits, ends) {
      var digits, ends :| Says(line, c, digits, ends);
      var body := (if c.Add? then "+ " else "- ") + digits;
      assert body[|body| - 1] == digits[|digits| - 1] && digits[|digits| - 1] in digits;
      TrimsEnds(body, ends);
      assert body + ends == line && body[2..] == digits && body[0] == if c.Add? then '+' else '-';
    }
  }

  // ---- the guard's side ----

  function Act(groups: set<nat>, c: Option<Change>): set<nat> {
    match c
    case Some(Add(g)) => groups + {g}
    case Some(Remove(g)) => groups - {g}
    case None => groups
  }

  /** Where the first line ends, or the length of a text with no complete line. */
  function LineEnd(text: string): (n: nat)
    ensures n <= |text|
    ensures n == |text| ==> '\n' !in text
    ensures n < |text| ==> text[n] == '\n' && '\n' !in text[..n]
  {
    if text == "" || text[0] == '\n' then 0
    else
      var n := LineEnd(text[1..]);
      assert text[..n + 1] == [text[0]] + text[1..][..n];
      n + 1
  }

  /** What the guard's set becomes by reading a stream: its complete lines count, in order. */
  function Reads(text: string, groups: set<nat>): set<nat>
    decreases |text|
  {
    var n := LineEnd(text);
    if n == |text| then groups else Reads(text[n + 1..], Act(groups, ParseLine(text[..n + 1])))
  }

  predicate IsLine(line: string) {
    line != "" && line[|line| - 1] == '\n' && '\n' !in line[..|line| - 1]
  }

  function Joined(lines: seq<string>): string {
    if lines == [] then "" else Joined(lines[..|lines| - 1]) + lines[|lines| - 1]
  }

  /** The fold of a list of lines. */
  function Folded(lines: seq<string>, groups: set<nat>): set<nat> {
    if lines == [] then groups else Act(Folded(lines[..|lines| - 1], groups), ParseLine(lines[|lines| - 1]))
  }

  lemma {:induction false} LineEndAt(line: string, rest: string)
    requires IsLine(line)
    ensures LineEnd(line + rest) == |line| - 1
    decreases |line|
  {
    if |line| > 1 {
      assert line[0] in line[..|line| - 1];
      assert line[1..][..|line| - 2] == line[..|line| - 1][1..];
      assert IsLine(line[1..]);
      LineEndAt(line[1..], rest);
      assert (line + rest)[1..] == line[1..] + rest;
    }
  }

  lemma {:induction false} NoLineEnd(cut: string)
    requires '\n' !in cut
    ensures LineEnd(cut) == |cut|
    decreases |cut|
  {
    if cut != "" { NoLineEnd(cut[1..]); }
  }

  lemma ReadsLine(line: string, rest: string, groups: set<nat>)
    requires IsLine(line)
    ensures Reads(line + rest, groups) == Reads(rest, Act(groups, ParseLine(line)))
  {
    LineEndAt(line, rest);
    assert (line + rest)[..|line|] == line && (line + rest)[|line|..] == rest;
  }

  lemma ReadsPart(cut: string, groups: set<nat>)
    requires '\n' !in cut
    ensures Reads(cut, groups) == groups
  {
    NoLineEnd(cut);
  }

  /** A stream of complete lines and then a part of one reads as the fold of the lines. */
  lemma {:induction false} ReadsLines(lines: seq<string>, cut: string, groups: set<nat>)
    requires (forall l <- lines :: IsLine(l)) && '\n' !in cut
    ensures Reads(Joined(lines) + cut, groups) == Folded(lines, groups)
    decreases |lines|
  {
    ReadsAfter(lines, cut, groups);
    ReadsPart(cut, Folded(lines, groups));
  }

  lemma {:induction false} ReadsAfter(lines: seq<string>, rest: string, groups: set<nat>)
    requires forall l <- lines :: IsLine(l)
    ensures Reads(Joined(lines) + rest, groups) == Reads(rest, Folded(lines, groups))
    decreases |lines|
  {
    if lines == [] {
      assert "" + rest == rest;
    } else {
      var init, last := lines[..|lines| - 1], lines[|lines| - 1];
      assert Joined(lines) + rest == Joined(init) + (last + rest);
      ReadsAfter(init, last + rest, groups);
      ReadsLine(last, rest, Folded(init, groups));
    }
  }

  /** How many lines are complete in the first `k` bytes. */
  function Complete(lines: seq<string>, k: nat): (n: nat)
    ensures n <= |lines|
  {
    if |Joined(lines)| <= k || lines == [] then |lines| else Complete(lines[..|lines| - 1], k)
  }

  lemma {:induction false} CutText(lines: seq<string>, k: nat) returns (cut: string)
    requires (forall l <- lines :: IsLine(l)) && k <= |Joined(lines)|
    ensures var n := Complete(lines, k); Joined(lines)[..k] == Joined(lines[..n]) + cut && '\n' !in cut
    decreases |lines|
  {
    if |Joined(lines)| <= k || lines == [] {
      cut := "";
      assert lines[..|lines|] == lines;
      assert Joined(lines)[..k] == Joined(lines) + cut;
    } else {
      var init, last := lines[..|lines| - 1], lines[|lines| - 1];
      if k <= |Joined(init)| {
        cut := CutText(init, k);
        var n := Complete(init, k);
        assert init[..n] == lines[..n];
        assert Joined(lines)[..k] == Joined(init)[..k];
      } else {
        cut := last[..k - |Joined(init)|];
        assert init[..|init|] == init && Complete(lines, k) == |init|;
        assert lines[..|init|] == init;
        assert Joined(lines)[..k] == Joined(init) + cut;
        assert last in lines && IsLine(last);
        assert cut == last[..|last| - 1][..k - |Joined(init)|];
      }
    }
  }

  /** A stream of lines cut at any byte reads as the fold of the lines that are complete: a number
      that was cut is not acted on. */
  lemma CutAnywhere(lines: seq<string>, k: nat, groups: set<nat>)
    requires (forall l <- lines :: IsLine(l)) && k <= |Joined(lines)|
    ensures Reads(Joined(lines)[..k], groups) == Folded(lines[..Complete(lines, k)], groups)
  {
    var cut := CutText(lines, k);
    ReadsLines(lines[..Complete(lines, k)], cut, groups);
  }

  /** serve: the groups to stop once the input ended. `own` is the guard's own group. */
  method Serve(input: string, own: nat) returns (groups: set<nat>, stopped: set<nat>)
    ensures groups == Reads(input, {})
    ensures stopped == groups - {own}
  {
    groups := {};
    var line, rest := ReadUntilNewline(input);
    while EndsInNewline(line)
      invariant IsLine(line) || (rest == "" && '\n' !in line)
      invariant Reads(line + rest, groups) == Reads(input, {})
      decreases |line| + |rest|
    {
      EndedLine(line);
      ReadsLine(line, rest, groups);
      groups := ActOn(groups, ParseLine(line));
      line, rest := ReadUntilNewline(rest);
    }
    EndedLine(line);
    assert line + rest == line;
    ReadsPart(line, groups);
    stopped := groups - {own};
  }

  predicate EndsInNewline(line: string) {
    line != "" && line[|line| - 1] == '\n'
  }

  lemma EndedLine(line: string)
    requires IsLine(line) || '\n' !in line
    ensures EndsInNewline(line) <==> IsLine(line)
    ensures EndsInNewline(line) <==> '\n' in line
  {
    if EndsInNewline(line) { assert line[|line| - 1] in line; }
  }

  method ActOn(was: set<nat>, c: Option<Change>) returns (groups: set<nat>)
    ensures groups == Act(was, c)
  {
    groups := was;
    match c
    case Some(Add(g)) => groups := groups + {g};
    case Some(Remove(g)) => groups := groups - {g};
    case None =>
  }

  /** read_until: up to the next newline, or what is left. */
  method ReadUntilNewline(input: string) returns (line: string, rest: string)
    ensures input == line + rest
    ensures IsLine(line) || (rest == "" && '\n' !in line)
  {
    var i := 0;
    while i < |input| && input[i] != '\n'
      invariant i <= |input| && '\n' !in input[..i]
    {
      assert input[..i + 1] == input[..i] + [input[i]];
      i := i + 1;
    }
    if i < |input| {
      line, rest := input[..i + 1], input[i + 1..];
      assert line[..|line| - 1] == input[..i];
    } else {
      line, rest := input, "";
      assert input[..i] == input;
    }
  }

  // ---- whole lines added to a stream ----

  /** A text of complete lines. */
  predicate Whole(text: string) {
    text == "" || text[|text| - 1] == '\n'
  }

  lemma {:induction false} ReadsMore(text: string, rest: string, groups: set<nat>)
    requires Whole(text)
    ensures Reads(text + rest, groups) == Reads(rest, Reads(text, groups))
    decreases |text|
  {
    if text == "" {
      assert "" + rest == rest;
      NoLineEnd("");
    } else {
      var n := LineEnd(text);
      WholeHasEnd(text);
      var line, more := text[..n + 1], text[n + 1..];
      assert text == line + more && text + rest == line + (more + rest);
      ReadsLine(line, more, groups);
      ReadsLine(line, more + rest, groups);
      ReadsMore(more, rest, Act(groups, ParseLine(line)));
    }
  }

  lemma WholeHasEnd(text: string)
    requires Whole(text) && text != ""
    ensures LineEnd(text) < |text| && IsLine(text[..LineEnd(text) + 1]) && Whole(text[LineEnd(text) + 1..])
  {
    assert text[|text| - 1] in text;
    var n := LineEnd(text);
    assert text[..n + 1][..n] == text[..n];
  }

  lemma DigitsAreNoNewline(c: Change)
    ensures IsLine(Line(c))
  {
    var line := Line(c);
    var body := (if c.Add? then "+ " else "- ") + Digits(c.g);
    assert line == body + "\n" && line[..|line| - 1] == body;
    assert forall x <- Digits(c.g) :: IsDigit(x);
  }

  /** One more line on a stream is one more change of the set. */
  lemma ReadsChange(text: string, c: Change, groups: set<nat>)
    requires Whole(text) && Group(c.g)
    ensures Whole(text + Line(c)) && Reads(text + Line(c), groups) == Act(Reads(text, groups), Some(c))
  {
    DigitsAreNoNewline(c);
    PrintedLineParses(c);
    ReadsMore(text, Line(c), groups);
    assert Line(c) + "" == Line(c);
    ReadsLine(Line(c), "", Reads(text, groups));
    ReadsPart("", Act(Reads(text, groups), Some(c)));
  }

  // ---- the respawn limit ----

  function Since(now: Time, t: Time): Time {
    if now < t then 0 else now - t
  }

  /** The starts counted against the limit at `now`. */
  function Recent(grants: seq<Time>, now: Time): nat {
    if grants == [] then 0
    else Recent(grants[..|grants| - 1], now) + if Since(now, grants[|grants| - 1]) <= RESPAWN_WINDOW then 1 else 0
  }

  /** The times of the starts, in order, are such that no six of them lie within one window. */
  predicate Spaced(grants: seq<Time>) {
    && (forall i, j | 0 <= i < j < |grants| :: grants[i] <= grants[j])
    && (forall i | RESPAWN_MAX <= i < |grants| :: grants[i] - grants[i - RESPAWN_MAX] > RESPAWN_WINDOW)
  }

  lemma {:induction false} RecentAreLast(grants: seq<Time>, cut: nat, now: Time)
    requires cut <= |grants|
    requires forall i | 0 <= i < cut :: Since(now, grants[i]) > RESPAWN_WINDOW
    requires forall i | cut <= i < |grants| :: Since(now, grants[i]) <= RESPAWN_WINDOW
    ensures Recent(grants, now) == |grants| - cut
    decreases |grants|
  {
    if grants != [] {
      var init := grants[..|grants| - 1];
      if cut == |grants| { RecentAreLast(init, cut - 1, now); } else { RecentAreLast(init, cut, now); }
    }
  }

  /** Of starts that are spaced, six in a row span more than the window. */
  lemma SpacedSpans(grants: seq<Time>, i: nat, j: nat)
    requires Spaced(grants) && i + RESPAWN_MAX <= j < |grants|
    ensures grants[j] - grants[i] > RESPAWN_WINDOW
  {
    assert grants[i] <= grants[j - RESPAWN_MAX];
  }

  /** The list kept is the last starts, and the ones it has forgotten are too old to count. */
  predicate Limits(starts: seq<Time>, respawns: seq<Time>, asked: Time) {
    && Spaced(starts) && |respawns| <= RESPAWN_MAX
    && |respawns| <= |starts| && respawns == starts[|starts| - |respawns|..]
    && (forall i | 0 <= i < |starts| :: starts[i] <= asked)
    && (forall i | 0 <= i < |starts| - |respawns| :: asked - starts[i] > RESPAWN_WINDOW)
  }

  lemma LimitsForget(starts: seq<Time>, respawns: seq<Time>, asked: Time)
    requires Limits(starts, respawns, asked) && respawns != [] && Since(asked, respawns[0]) > RESPAWN_WINDOW
    ensures Limits(starts, respawns[1..], asked)
  {
    assert respawns[0] == starts[|starts| - |respawns|];
  }

  lemma LimitsGrant(starts: seq<Time>, respawns: seq<Time>, asked: Time)
    requires Limits(starts, respawns, asked) && |respawns| < RESPAWN_MAX
    ensures Limits(starts + [asked], respawns + [asked], asked)
  {
    var more := starts + [asked];
    forall i, j | 0 <= i < j < |more| ensures more[i] <= more[j] {
      assert more[i] == starts[i] && starts[i] <= asked;
    }
    forall i | RESPAWN_MAX <= i < |more| ensures more[i] - more[i - RESPAWN_MAX] > RESPAWN_WINDOW {
      assert more[i - RESPAWN_MAX] == starts[i - RESPAWN_MAX];
      assert i < |starts| ==> more[i] == starts[i];
    }
    assert respawns + [asked] == more[|starts| - |respawns|..];
  }

  /** The starts that count are those in the list, once the old ones at its head are gone. */
  lemma LimitsCount(starts: seq<Time>, respawns: seq<Time>, asked: Time)
    requires Limits(starts, respawns, asked)
    requires respawns != [] ==> Since(asked, respawns[0]) <= RESPAWN_WINDOW
    ensures Recent(starts, asked) == |respawns|
  {
    var cut := |starts| - |respawns|;
    forall i | cut <= i < |starts| ensures Since(asked, starts[i]) <= RESPAWN_WINDOW {
      assert starts[cut] == respawns[0] && (i > cut ==> starts[cut] <= starts[i]);
    }
    RecentAreLast(starts, cut, asked);
  }

  // ---- the backend's side ----

  /** How a write to the guard ends: the guard is gone when it fails, and may have got a part. */
  datatype Write = Wrote | Failed(part: nat)

  /** How starting a guard ends, and how the write of the set to it. */
  datatype Start = Started(pid: nat, write: Write) | NotStarted

  class State {
    var hasDir: bool
    var pipe: bool            // the pipe to the running guard is open
    var pid: Option<nat>
    var groups: set<nat>
    var finishing: bool
    var respawns: seq<Time>
    ghost var written: string      // what the last guard started was given on its pipe
    ghost var starts: seq<Time>    // every start counted against the limit
    ghost var asked: Time          // when may_respawn was asked last

    ghost predicate Valid()
      reads this
    {
      && (forall g <- groups :: Group(g))
      && Told()
      && (finishing ==> groups == {} && !pipe)
      && Limited()
    }

    /** The limit on respawns, over everything ever counted: six starts in a row span more than
        the window, however many of them the list has forgotten. */
    lemma SixStartsSpanMore(i: nat, j: nat)
      requires Limited() && i + RESPAWN_MAX <= j < |starts|
      ensures starts[j] - starts[i] > RESPAWN_WINDOW
    {
      SpacedSpans(starts, i, j);
    }

    /** While the pipe is open, what was written on it reads as the set. */
    ghost predicate Told()
      reads this`pipe, this`written, this`groups
    {
      pipe ==> Whole(written) && Reads(written, {}) == groups
    }

    ghost predicate Limited()
      reads this`starts, this`respawns, this`asked
    {
      Limits(starts, respawns, asked)
    }

    constructor ()
      ensures Valid() && groups == {} && !pipe && !hasDir && !finishing && starts == []
    {
      hasDir, pipe, pid, groups, finishing, respawns := false, false, None, {}, false, [];
      written, starts, asked := "", [], 0;
    }

    /** send */
    method Send(text: string, w: Write)
      modifies this`pipe, this`written
      ensures if !old(pipe) then !pipe && written == old(written)
              else if w.Wrote? then pipe && written == old(written) + text
              else !pipe && exists n :: 0 <= n <= |text| && written == old(written) + text[..n]
    {
      if pipe {
        if w.Failed? {
          pipe := false;
          var n := if w.part <= |text| then w.part else |text|;
          written := written + text[..n];
        } else {
          written := written + text;
        }
      }
    }

    /** register_in. `own` is the backend's own group. */
    method Register(pgid: int, own: int, now: Time, w: Write, s: Start) returns (killed: bool)
      requires Valid() && now >= asked && pgid <= I32_MAX
      modifies this
      ensures Valid() && finishing == old(finishing) && hasDir == old(hasDir)
      ensures groups == old(groups) + if pgid <= 1 || finishing then {} else {pgid as nat}
      ensures killed <==> pgid > 1 && finishing && pgid != own
      ensures old(pipe) && w.Wrote? ==> pipe
      ensures !finishing && pgid > 1 && pgid !in old(groups) && !old(pipe) ==>
                if hasDir && Recent(old(starts), now) < RESPAWN_MAX && s.Started?
                then pid == Some(s.pid) && (pipe <==> s.write.Wrote?)
                else pid == old(pid) && !pipe
      ensures finishing || pgid <= 1 || pgid in old(groups) || old(pipe) ==> pid == old(pid) && starts == old(starts)
    {
      killed := false;
      if pgid <= 1 {
        return;
      }
      if finishing {
        killed := pgid != own;
        return;
      }
      if pgid in groups {
        return;
      }
      if pipe {
        Tell(pgid, w);
      } else {
        groups := groups + {pgid};
        StartIfMay(now, s);
      }
    }

    method StartIfMay(now: Time, s: Start)
      requires Valid() && !pipe && !finishing && now >= asked
      modifies this
      ensures Valid() && groups == old(groups) && hasDir == old(hasDir) && !finishing
      ensures if hasDir && Recent(old(starts), now) < RESPAWN_MAX && s.Started?
              then pid == Some(s.pid) && (pipe <==> groups == {} || s.write.Wrote?)
              else pid == old(pid) && !pipe
    {
      if hasDir {
        Respawn(now, s);
      }
    }

    /** A guard is started again, if the limit allows it. */
    method Respawn(now: Time, s: Start)
      requires Valid() && !pipe && !finishing && now >= asked
      modifies this`respawns, this`starts, this`asked, this`pipe, this`pid, this`written
      ensures Valid()
      ensures if hasDir && Recent(old(starts), now) < RESPAWN_MAX && s.Started?
              then pid == Some(s.pid) && (pipe <==> groups == {} || s.write.Wrote?)
              else pid == old(pid) && !pipe
    {
      var may := MayRespawn(now);
      if may {
        var _ := Spawn(s);
      }
    }

    method Tell(g: nat, w: Write)
      requires Valid() && pipe && Group(g) && !finishing
      modifies this`groups, this`pipe, this`written
      ensures Valid() && groups == old(groups) + {g} && (w.Wrote? ==> pipe)
    {
      groups := groups + {g};
      ReadsChange(written, Add(g), {});
      Send(Line(Add(g)), w);
    }

    /** unregister_in */
    method Unregister(pgid: nat, w: Write)
      requires Valid()
      modifies this
      ensures Valid() && groups == old(groups) - {pgid} && finishing == old(finishing)
      ensures old(pipe) && w.Wrote? ==> pipe
    {
      if pgid in groups {
        TellGone(pgid, w);
      }
    }

    method TellGone(g: nat, w: Write)
      requires Valid() && g in groups
      modifies this`groups, this`pipe, this`written
      ensures Valid() && groups == old(groups) - {g} && (old(pipe) && w.Wrote? ==> pipe)
    {
      groups := groups - {g};
      if pipe { ReadsChange(written, Remove(g), {}); }
      Send(Line(Remove(g)), w);
    }

    /** may_respawn */
    method MayRespawn(now: Time) returns (may: bool)
      requires Limited() && now >= asked
      modifies this`respawns, this`starts, this`asked
      ensures Limited() && asked == now
      ensures may <==> Recent(old(starts), now) < RESPAWN_MAX
      ensures starts == if may then old(starts) + [now] else old(starts)
    {
      Forget(now);
      LimitsCount(starts, respawns, now);
      if |respawns| >= RESPAWN_MAX {
        return false;
      }
      LimitsGrant(starts, respawns, now);
      respawns := respawns + [now];
      starts := starts + [now];
      may := true;
    }

    /** The starts that are too old to count leave the list. */
    method Forget(now: Time)
      requires Limited() && now >= asked
      modifies this`respawns, this`asked
      ensures Limited() && asked == now
      ensures respawns != [] ==> Since(now, respawns[0]) <= RESPAWN_WINDOW
    {
      asked := now;
      while respawns != [] && Since(now, respawns[0]) > RESPAWN_WINDOW
        invariant Limited() && asked == now
        decreases |respawns|
      {
        LimitsForget(starts, respawns, asked);
        respawns := respawns[1..];
      }
    }

    /** spawn_locked: the guard is given every group. */
    method Spawn(s: Start) returns (ok: bool)
      requires Told() && forall g <- groups :: Group(g)
      modifies this`pipe, this`pid, this`written
      ensures Told()
      ensures !ok ==> pipe == old(pipe) && pid == old(pid) && written == old(written)
      ensures ok <==> hasDir && s.Started?
      ensures ok ==> pid == Some(s.pid) && (pipe <==> groups == {} || s.write.Wrote?)
    {
      if !hasDir || s.NotStarted? {
        return false;
      }
      pipe := true;
      pid := Some(s.pid);
      written := "";
      ReadsPart("", {});
      if groups != {} {
        var lines := LinesOf(groups, true);
        assert "" + lines == lines;
        ReadsAll(lines, groups, true, {});
        Send(lines, s.write);
      }
      ok := true;
    }

    /** on_exit_in */
    method OnExit(exited: nat, now: Time, s: Start)
      requires Valid() && now >= asked
      modifies this
      ensures Valid() && groups == old(groups) && finishing == old(finishing)
      ensures old(pid) != Some(exited) || finishing ==> pipe == old(pipe) && pid == old(pid) && starts == old(starts)
      ensures old(pid) == Some(exited) && !finishing ==>
                if hasDir && s.Started? && Recent(old(starts), now) < RESPAWN_MAX
                then pid == Some(s.pid) && (pipe <==> groups == {} || s.write.Wrote?)
                else pid == None && !pipe
    {
      if pid != Some(exited) || finishing {
        return;
      }
      pipe := false;
      pid := None;
      Respawn(now, s);
    }

    /** start */
    method StartGuard(s: Start)
      requires Valid()
      modifies this
      ensures Valid() && groups == old(groups) && starts == old(starts) && finishing == old(finishing)
      ensures hasDir == (old(hasDir) || !finishing)
      ensures if finishing || old(hasDir) || s.NotStarted? then pid == old(pid) && pipe == old(pipe)
              else pid == Some(s.pid) && (pipe <==> groups == {} || s.write.Wrote?)
    {
      if finishing || hasDir {
        return;
      }
      hasDir := true;
      var _ := Spawn(s);
    }

    /** finish_in: every group still registered is stopped, and the guard is told so. */
    method Finish(own: nat, w: Write) returns (stopped: set<nat>)
      requires Valid()
      modifies this
      ensures Valid() && finishing && groups == {} && !pipe
      ensures stopped == old(groups) - {own}
      ensures old(pipe) && w.Wrote? ==> Reads(written, {}) == {}
    {
      var was := groups;
      stopped := was - {own};
      if was != {} {
        var lines := LinesOf(was, false);
        if pipe {
          ReadsMore(written, lines, {});
          ReadsAll(lines, was, false, was);
        }
        Send(lines, w);
      }
      groups, finishing, pipe := {}, true, false;
    }
  }

  function ChangeOf(add: bool, g: nat): Change {
    if add then Add(g) else Remove(g)
  }

  /** A text is one line for each group of a set. */
  ghost predicate IsLinesOf(text: string, groups: set<nat>, add: bool)
    decreases |groups|
  {
    if groups == {} then text == ""
    else exists g, init :: g in groups && text == init + Line(ChangeOf(add, g)) && IsLinesOf(init, groups - {g}, add)
  }

  /** One line for each group. */
  method LinesOf(groups: set<nat>, add: bool) returns (text: string)
    requires forall g <- groups :: Group(g)
    ensures IsLinesOf(text, groups, add)
  {
    text := "";
    var todo := groups;
    while todo != {}
      invariant todo <= groups && IsLinesOf(text, groups - todo, add)
      decreases todo
    {
      var g :| g in todo;
      assert groups - (todo - {g}) - {g} == groups - todo;
      todo := todo - {g};
      text := text + Line(ChangeOf(add, g));
    }
    assert groups - todo == groups;
  }

  lemma LastOfAll(groups: set<nat>, g: nat, add: bool, start: set<nat>)
    requires g in groups
    ensures Act(if add then start + (groups - {g}) else start - (groups - {g}), Some(ChangeOf(add, g))) ==
            if add then start + groups else start - groups
  {
  }

  lemma {:induction false} ReadsAll(text: string, groups: set<nat>, add: bool, start: set<nat>)
    requires IsLinesOf(text, groups, add) && forall g <- groups :: Group(g)
    ensures Whole(text) && Reads(text, start) == if add then start + groups else start - groups
    decreases |groups|
  {
    if groups == {} {
      ReadsPart("", start);
    } else {
      var g: nat, init: string :| g in groups && text == init + Line(ChangeOf(add, g)) && IsLinesOf(init, groups - {g}, add);
      ReadsAll(init, groups - {g}, add, start);
      ReadsChange(init, ChangeOf(add, g), start);
      LastOfAll(groups, g, add, start);
    }
  }
}
