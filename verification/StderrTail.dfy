/** The end of a starting kernel's stderr, kept within a bound (core/src/kernel.rs: push_tail). */
module StderrTail {

  const TAIL_MAX: nat := 8192

  type Byte = b: int | 0 <= b < 256

  // ---- UTF-8, as section 3 of RFC 3629 has it ----

  predicate Continues(b: Byte) {
    0x80 <= b <= 0xBF
  }

  /** The bytes of one character. */
  predicate IsChar(c: seq<Byte>) {
    match |c|
    case 1 => c[0] <= 0x7F
    case 2 => 0xC2 <= c[0] <= 0xDF && Continues(c[1])
    case 3 =>
      && 0xE0 <= c[0] <= 0xEF && Continues(c[1]) && Continues(c[2])
      && (c[0] == 0xE0 ==> c[1] >= 0xA0) && (c[0] == 0xED ==> c[1] <= 0x9F)
    case 4 =>
      && 0xF0 <= c[0] <= 0xF4 && Continues(c[1]) && Continues(c[2]) && Continues(c[3])
      && (c[0] == 0xF0 ==> c[1] >= 0x90) && (c[0] == 0xF4 ==> c[1] <= 0x8F)
    case _ => false
  }

  /** How long a character is, by its first byte. */
  function CharLength(b: Byte): nat {
    if b <= 0x7F then 1 else if b <= 0xDF then 2 else if b <= 0xEF then 3 else 4
  }

  predicate Utf8(text: seq<Byte>)
    decreases |text|
  {
    text == [] ||
    var n := CharLength(text[0]);
    n <= |text| && IsChar(text[..n]) && Utf8(text[n..])
  }

  /** is_char_boundary */
  predicate Boundary(text: seq<Byte>, i: nat) {
    i == 0 || i == |text| || (i < |text| && !Continues(text[i]))
  }

  /** A character starts with a byte that does not continue one, and the rest do. */
  lemma CharShape(c: seq<Byte>)
    requires IsChar(c)
    ensures c != [] && !Continues(c[0]) && |c| <= 4 && forall i | 1 <= i < |c| :: Continues(c[i])
  {
  }

  /** A text that is not empty starts with a character. */
  lemma FirstChar(text: seq<Byte>) returns (n: nat)
    requires Utf8(text) && text != []
    ensures n == CharLength(text[0]) && 1 <= n <= 4 && n <= |text| && Utf8(text[n..])
    ensures !Continues(text[0]) && forall i | 1 <= i < n :: Continues(text[i])
  {
    n := CharLength(text[0]);
    CharShape(text[..n]);
    assert forall i | 0 <= i < n :: text[..n][i] == text[i];
  }

  lemma Utf8Prefixed(a: seq<Byte>, rest: seq<Byte>, text: seq<Byte>, n: nat)
    requires Utf8(a) && a != [] && n == CharLength(a[0]) && n <= |a|
    requires |text| >= n && text[..n] == a[..n] && text[n..] == rest && Utf8(rest)
    ensures Utf8(text)
  {
    var m := FirstChar(a);
    assert text[0] == text[..n][0] == a[..n][0] == a[0];
  }

  lemma {:induction false} Utf8Joined(a: seq<Byte>, b: seq<Byte>)
    requires Utf8(a) && Utf8(b)
    ensures Utf8(a + b)
    decreases |a|
  {
    if a == [] {
      assert a + b == b;
    } else {
      var n := FirstChar(a);
      Utf8Joined(a[n..], b);
      assert (a + b)[n..] == a[n..] + b;
      Utf8Prefixed(a, a[n..] + b, a + b, n);
    }
  }

  /** A text cut at a boundary is cut between characters. */
  lemma {:induction false} BoundaryCuts(text: seq<Byte>, i: nat)
    requires Utf8(text) && i <= |text| && Boundary(text, i)
    ensures Utf8(text[i..])
    decreases |text|
  {
    if i == 0 {
      assert text[0..] == text;
    } else if i == |text| {
      assert text[i..] == [];
    } else {
      var n := FirstChar(text);
      assert i >= n;
      BoundaryCuts(text[n..], i - n);
      assert text[n..][i - n..] == text[i..];
    }
  }

  /** No more than three bytes in a row continue a character. */
  lemma {:induction false} BoundaryNear(text: seq<Byte>, i: nat) returns (k: nat)
    requires Utf8(text) && i <= |text|
    ensures i <= k <= i + 3 && k <= |text| && Boundary(text, k)
    decreases |text|
  {
    if i == 0 || i == |text| {
      k := i;
    } else {
      var n := FirstChar(text);
      if i <= n {
        k := n;
        if n < |text| {
          var _ := FirstChar(text[n..]);
          assert text[n..][0] == text[n];
        }
      } else {
        k := BoundaryNear(text[n..], i - n);
        assert k < |text[n..]| ==> text[n..][k] == text[n + k];
        k := n + k;
      }
    }
  }

  // ---- the tail ----

  /** Where the tail of a text starts: the first boundary that leaves no more than TAIL_MAX bytes. */
  function Cut(text: seq<Byte>, from: nat): (c: nat)
    requires from <= |text|
    ensures from <= c <= |text| && Boundary(text, c)
    ensures forall k | from <= k < c :: !Boundary(text, k)
    decreases |text| - from
  {
    if Boundary(text, from) then from else Cut(text, from + 1)
  }

  function Start(text: seq<Byte>): nat {
    Cut(text, if |text| > TAIL_MAX then |text| - TAIL_MAX else 0)
  }

  /** The longest end of a text that is no more than TAIL_MAX bytes and starts on a boundary. */
  function TailOf(text: seq<Byte>): seq<Byte> {
    text[Start(text)..]
  }

  /** It is the longest, it is whole characters, and no more than three bytes short of the bound. */
  lemma TailIsLongest(text: seq<Byte>)
    requires Utf8(text)
    ensures |TailOf(text)| <= TAIL_MAX && Utf8(TailOf(text))
    ensures forall k | 0 <= k <= |text| && Boundary(text, k) && |text| - k <= TAIL_MAX :: |text| - k <= |TailOf(text)|
    ensures if |text| <= TAIL_MAX then TailOf(text) == text else |TailOf(text)| >= TAIL_MAX - 3
  {
    BoundaryCuts(text, Start(text));
    if |text| > TAIL_MAX { var _ := BoundaryNear(text, |text| - TAIL_MAX); }
  }

  lemma BoundaryJoined(a: seq<Byte>, b: seq<Byte>, i: nat)
    requires Utf8(a) && Utf8(b) && i <= |a|
    ensures Boundary(a + b, i) <==> Boundary(a, i)
  {
    if i == |a| && b != [] {
      var _ := FirstChar(b);
      assert (a + b)[i] == b[0];
    }
  }

  lemma CutIs(text: seq<Byte>, from: nat, c: nat)
    requires from <= c <= |text| && Boundary(text, c)
    requires forall k | from <= k < c :: !Boundary(text, k)
    ensures Cut(text, from) == c
  {
    assert Boundary(text, Cut(text, from)) && Cut(text, from) >= c;
  }

  lemma BoundaryShifted(text: seq<Byte>, c: nat, k: nat)
    requires c <= k <= |text| && Boundary(text, c)
    ensures Boundary(text[c..], k - c) <==> Boundary(text, k)
  {
  }

  /** Nothing between the bound and the start of the tail is a boundary of a longer text either. */
  lemma StartKept(whole: seq<Byte>, text: seq<Byte>)
    requires Utf8(whole) && Utf8(text)
    ensures var c := Start(whole);
            && Boundary(whole + text, c)
            && forall k | |whole| - TAIL_MAX <= k < c && 0 <= k :: !Boundary(whole + text, k)
  {
    var c := Start(whole);
    BoundaryJoined(whole, text, c);
    forall k | |whole| - TAIL_MAX <= k < c && 0 <= k ensures !Boundary(whole + text, k) {
      BoundaryJoined(whole, text, k);
    }
  }

  lemma StartShifted(all: seq<Byte>, c: nat)
    requires |all| > TAIL_MAX && c <= |all| && Boundary(all, c)
    requires forall k | |all| - TAIL_MAX <= k < c :: !Boundary(all, k)
    ensures c <= Start(all) && Start(all[c..]) == Start(all) - c
  {
    var s, from := Start(all), |all| - TAIL_MAX;
    var kept := all[c..];
    if c >= from {
      CutIs(all, from, c);
      CutIs(kept, 0, 0);
    } else {
      BoundaryShifted(all, c, s);
      forall k | from - c <= k < s - c ensures !Boundary(kept, k) { BoundaryShifted(all, c, k + c); }
      CutIs(kept, from - c, s - c);
    }
  }

  lemma DroppedTwice(all: seq<Byte>, c: nat, s: nat)
    requires c <= s <= |all|
    ensures all[c..][s - c..] == all[s..]
  {
  }

  /** What is before the tail never matters again: the tail of the tail and a new text is the tail
      of everything. */
  lemma TailOfTail(whole: seq<Byte>, text: seq<Byte>)
    requires Utf8(whole) && Utf8(text)
    ensures TailOf(TailOf(whole) + text) == TailOf(whole + text)
  {
    var c, all := Start(whole), whole + text;
    assert TailOf(whole) + text == all[c..];
    if |all| <= TAIL_MAX {
      CutIs(whole, 0, 0);
      assert all[0..] == all;
    } else {
      StartKept(whole, text);
      StartShifted(all, c);
      DroppedTwice(all, c, Start(all));
    }
  }

  function Joined(texts: seq<seq<Byte>>): seq<Byte> {
    if texts == [] then [] else Joined(texts[..|texts| - 1]) + texts[|texts| - 1]
  }

  /** The tail after these texts, one after the other. */
  function Pushed(texts: seq<seq<Byte>>): seq<Byte> {
    if texts == [] then [] else TailOf(Pushed(texts[..|texts| - 1]) + texts[|texts| - 1])
  }

  /** How the text was cut into chunks does not show in the tail. */
  lemma {:induction false} TailIgnoresChunks(texts: seq<seq<Byte>>)
    requires forall t <- texts :: Utf8(t)
    ensures Utf8(Joined(texts)) && Pushed(texts) == TailOf(Joined(texts))
    decreases |texts|
  {
    if texts == [] {
      assert TailOf([]) == [];
    } else {
      var init, last := texts[..|texts| - 1], texts[|texts| - 1];
      TailIgnoresChunks(init);
      Utf8Joined(Joined(init), last);
      TailOfTail(Joined(init), last);
    }
  }

  /** A kernel's stderr tail. */
  class Tail {
    var text: seq<Byte>
    ghost var texts: seq<seq<Byte>>   // everything it was given

    ghost predicate Valid()
      reads this
    {
      (forall t <- texts :: Utf8(t)) && text == TailOf(Joined(texts))
    }

    constructor ()
      ensures Valid() && texts == [] && text == []
    {
      text, texts := [], [];
      new;
      assert TailOf([]) == [];
    }

    /** push_tail */
    method Push(more: seq<Byte>)
      requires Valid() && Utf8(more)
      modifies this
      ensures Valid() && texts == old(texts) + [more]
      ensures text == TailOf(old(text) + more)
    {
      TailIgnoresChunks(texts);
      TailOfTail(Joined(texts), more);
      JoinedMore(texts, more);
      texts := texts + [more];
      text := text + more;
      Trim();
    }

    method Trim()
      modifies this`text
      ensures text == TailOf(old(text))
    {
      if |text| > TAIL_MAX {
        var cut := |text| - TAIL_MAX;
        while !Boundary(text, cut)
          invariant |text| - TAIL_MAX <= cut <= |text|
          invariant forall k | |text| - TAIL_MAX <= k < cut :: !Boundary(text, k)
          decreases |text| - cut
        {
          cut := cut + 1;
        }
        CutIs(text, |text| - TAIL_MAX, cut);
        text := text[cut..];
      } else {
        CutIs(text, 0, 0);
        assert text[0..] == text;
      }
    }
  }

  lemma JoinedMore(texts: seq<seq<Byte>>, more: seq<Byte>)
    ensures Joined(texts + [more]) == Joined(texts) + more
  {
    assert (texts + [more])[..|texts|] == texts;
  }
}
