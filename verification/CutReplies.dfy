/**
 What becomes of a filtered reply when finish reasons come in the middle of it
 (internal/httpapi/exec.go, on the filter of internal/httpapi/thinking.go).

 At a finish reason the filter is flushed: a start it held back, because it
 might still have become a tag, is let out or, inside a block, dropped. What
 else the filter knows persists. `NoHarm` is the exact condition, on the text
 alone, under which all that is given is still the stripped reply.
 */
module CutReplies {
  import opened Common
  import opened ThinkFilters

  /** A piece of a reply as it streams in; `ends` says that a finish reason came with it. */
  datatype Piece = Piece(text: string, ends: bool)

  function TextOf(ps: seq<Piece>): string {
    if ps == [] then "" else ps[0].text + TextOf(ps[1..])
  }

  function Emptied(f: Filter): Filter {
    f.(pending := "")
  }

  /** All that the filter gives for the pieces to come, and at their end. */
  function Given(t: Tags, f: Filter, ps: seq<Piece>): string
    decreases |ps|
  {
    if ps == [] then Flush(f)
    else
      var (g, out) := Push(t, f, ps[0].text);
      if ps[0].ends then out + (Flush(g) + Given(t, Emptied(g), ps[1..])) else out + Given(t, g, ps[1..])
  }

  /** What the tags are like: in lower case, they begin alike, with a character that is in neither again, and then differ. */
  ghost predicate Plain(t: Tags) {
    && (forall j :: 0 <= j < |t.open| ==> Lower(t.open[j]) == t.open[j])
    && (forall j :: 0 <= j < |t.close| ==> Lower(t.close[j]) == t.close[j])
    && |t.open| > 1 && |t.close| > 1 && t.open[0] == t.close[0] && t.open[1] != t.close[1]
    && (forall j :: 0 < j < |t.close| ==> t.close[j] != t.close[0])
    && (forall j :: 0 < j < |t.open| ==> t.open[j] != t.open[0] && !Blank(t.open[j]))
  }

  lemma {:induction false} ThinkIsLower()
    ensures forall j :: 0 <= j < |THINK.open| ==> Lower(THINK.open[j]) == THINK.open[j]
    ensures forall j :: 0 <= j < |THINK.close| ==> Lower(THINK.close[j]) == THINK.close[j]
  {
  }

  lemma {:induction false} ThinkBeginsOnce()
    ensures forall j :: 0 < j < |THINK.close| ==> THINK.close[j] != THINK.close[0]
    ensures forall j :: 0 < j < |THINK.open| ==> THINK.open[j] != THINK.open[0] && !Blank(THINK.open[j])
  {
  }

  lemma {:induction false} ThinkIsPlain()
    ensures Plain(THINK)
  {
    ThinkIsLower();
    ThinkBeginsOnce();
  }

  /** The text begins, after white space, with an opening tag. */
  predicate Opens(t: Tags, s: string) {
    FoldAt(TrimLeft(s), 0, t.open)
  }

  // ---------- the exact condition ----------

  /** Nothing of what f and the pieces hold is dropped, for a filter outside any block. */
  predicate AllPasses(t: Tags, f: Filter, ps: seq<Piece>)
    decreases |ps|
  {
    if f.replying then true
    else if ps == [] then Trimmed(f.trim, f.pending) == f.pending
    else
      var s, g := f.pending + ps[0].text, Push(t, f, ps[0].text).0;
      && !Opens(t, s)
      && if g.replying || ps[0].ends then Trimmed(f.trim, s) == s && AllPasses(t, Emptied(g), ps[1..])
         else AllPasses(t, g, ps[1..])
  }

  /** Text after a closing tag that is dropped too if that tag is missed. */
  predicate DroppedAnyway(t: Tags, r: string) {
    TrimLeft(r) == "" || Opens(t, r)
  }

  /** Giving up the start that g holds back does no harm to the text b that follows, if what follows is read right. */
  predicate StartCanGo(t: Tags, g: Filter, b: string) {
    if g.inside then FoldAt(g.pending + b, 0, t.close) ==> DroppedAnyway(t, (g.pending + b)[|t.close|..])
    else if TrimLeft(g.pending) == "" then g.trim || !Opens(t, b)
    else !Opens(t, g.pending + b)
  }

  /**
   No finish reason does harm. One with nothing held back never does. Otherwise the start must be able to go, and
   what follows must be read right; but if a start of an opening tag was let out, all that
   follows is reply and must pass.
   */
  predicate NoHarm(t: Tags, f: Filter, ps: seq<Piece>)
    decreases |ps|
  {
    ps == [] ||
    var g, rest := Push(t, f, ps[0].text).0, ps[1..];
    if !ps[0].ends || g.pending == "" then NoHarm(t, g, rest)
    else
      && StartCanGo(t, g, TextOf(rest))
      && if !g.inside && TrimLeft(g.pending) != "" then AllPasses(t, Emptied(g), rest) else NoHarm(t, Emptied(g), rest)
  }

  // ---------- reading does not lengthen ----------

  lemma {:induction false} ScanShrinks(t: Tags, inside: bool, trim: bool, s: string)
    ensures var (g, out) := ScanFrom(t, inside, trim, s);
      |out| + |g.pending| <= |s| && (!inside && Opens(t, s) ==> |out| + |g.pending| < |s|)
    decreases |s|
  {
    if inside {
      var i := IndexFrom(s, t.close, 0);
      if i >= 0 {
        ScanShrinks(t, false, true, s[i + |t.close|..]);
      }
    } else if Opens(t, s) {
      ScanShrinks(t, true, trim, TrimLeft(s)[|t.open|..]);
    }
  }

  lemma {:induction false} PushShrinks(t: Tags, f: Filter, s: string)
    ensures var (g, out) := Push(t, f, s); |out| + |g.pending| <= |f.pending| + |s|
  {
    if !f.replying {
      ScanShrinks(t, f.inside, f.trim, f.pending + s);
    }
  }

  lemma {:induction false} GivenShrinks(t: Tags, f: Filter, ps: seq<Piece>)
    ensures |Given(t, f, ps)| <= |f.pending| + |TextOf(ps)|
    decreases |ps|
  {
    if ps != [] {
      var g := Push(t, f, ps[0].text).0;
      PushShrinks(t, f, ps[0].text);
      GivenShrinks(t, if ps[0].ends then Emptied(g) else g, ps[1..]);
    }
  }

  // ---------- once replying, everything passes ----------

  lemma {:induction false} ReplyPasses(t: Tags, f: Filter, ps: seq<Piece>)
    requires f.replying && f.pending == ""
    ensures Given(t, f, ps) == TextOf(ps)
    decreases |ps|
  {
    assert TrimLeft("") == "";
    if ps != [] {
      ReplyPasses(t, f, ps[1..]);
      assert "" + TextOf(ps[1..]) == TextOf(ps[1..]);
    }
  }

  /** A filter outside any block with nothing held back takes in nothing. */
  lemma {:induction false} NothingPushed(t: Tags, f: Filter)
    requires !f.replying && f.pending == ""
    ensures Push(t, f, "") == (f, "") && Flush(f) == ""
  {
    assert "" + "" == "" && TrimLeft("") == "";
    assert FoldAt("", 0, t.open[..0]) && !FoldAt("", 0, t.open);
    IndexIsFirst("", t.close, 0);
  }

  // ---------- what passes whole ----------

  /** The turn of a filter outside any block that reads no opening tag. */
  lemma {:induction false} OutsideTurn(t: Tags, f: Filter, text: string)
    requires !f.replying && !f.inside && !Opens(t, f.pending + text)
    ensures var s := f.pending + text;
      Push(t, f, text) == if MayBecomeOpen(t, TrimLeft(s)) then (f.(pending := s), "") else (Filter(true, false, "", f.trim), Trimmed(f.trim, s))
  {
  }

  lemma {:induction false} OpeningIsDropped(t: Tags, f: Filter, ps: seq<Piece>)
    requires ps != [] && !f.replying && !f.inside && Opens(t, f.pending + ps[0].text)
    ensures |Given(t, f, ps)| < |f.pending| + |TextOf(ps)|
  {
    var g := Push(t, f, ps[0].text).0;
    ScanShrinks(t, false, f.trim, f.pending + ps[0].text);
    GivenShrinks(t, if ps[0].ends then Emptied(g) else g, ps[1..]);
  }

  /** Two parts, neither longer than its due, are the whole exactly when each is. */
  lemma {:induction false} BothWhole(a: string, b: string, x: string, y: string)
    requires |a| <= |x| && |b| <= |y|
    ensures a + b == x + y <==> a == x && b == y
  {
    if a + b == x + y {
      assert |a| == |x|;
      assert a == (a + b)[..|a|] && x == (x + y)[..|x|];
      assert b == (a + b)[|a|..] && y == (x + y)[|x|..];
    }
  }

  lemma {:induction false} TrimmedShrinks(trim: bool, s: string)
    ensures |Trimmed(trim, s)| <= |s|
  {
  }

  /** AllPasses says exactly when nothing is dropped. */
  lemma {:induction false} PassesExactly(t: Tags, f: Filter, ps: seq<Piece>)
    requires !f.inside && (f.replying ==> f.pending == "")
    ensures Given(t, f, ps) == f.pending + TextOf(ps) <==> AllPasses(t, f, ps)
    decreases |ps|
  {
    if f.replying {
      ReplyPasses(t, f, ps);
      assert "" + TextOf(ps) == TextOf(ps);
    } else if ps == [] {
      assert f.pending + "" == f.pending;
    } else if Opens(t, f.pending + ps[0].text) {
      OpeningIsDropped(t, f, ps);
    } else {
      PassesTurn(t, f, ps);
    }
  }

  lemma {:induction false} PassesTurn(t: Tags, f: Filter, ps: seq<Piece>)
    requires !f.inside && !f.replying && ps != [] && !Opens(t, f.pending + ps[0].text)
    ensures Given(t, f, ps) == f.pending + TextOf(ps) <==> AllPasses(t, f, ps)
    decreases |ps|, 0
  {
    var s, rest, g := f.pending + ps[0].text, ps[1..], Push(t, f, ps[0].text).0;
    OutsideTurn(t, f, ps[0].text);
    Regroup(f.pending, ps[0].text, TextOf(rest));
    if g.replying || ps[0].ends {
      PassesExactly(t, Emptied(g), rest);
      assert "" + TextOf(rest) == TextOf(rest);
      GivenShrinks(t, Emptied(g), rest);
      TrimmedShrinks(f.trim, s);
      BothWhole(Trimmed(f.trim, s), Given(t, Emptied(g), rest), s, TextOf(rest));
      GivenAfter(t, f, ps);
    } else {
      PassesExactly(t, g, rest);
      assert "" + Given(t, g, rest) == Given(t, g, rest);
    }
  }

  /** The text of a piece that ends the start, by letting it out or by turning into reply. */
  lemma {:induction false} GivenAfter(t: Tags, f: Filter, ps: seq<Piece>)
    requires !f.inside && !f.replying && ps != [] && !Opens(t, f.pending + ps[0].text)
    requires ps[0].ends || Push(t, f, ps[0].text).0.replying
    ensures var g := Push(t, f, ps[0].text).0;
      Given(t, f, ps) == Trimmed(f.trim, f.pending + ps[0].text) + Given(t, Emptied(g), ps[1..])
  {
    var s, g := f.pending + ps[0].text, Push(t, f, ps[0].text).0;
    var w := Given(t, Emptied(g), ps[1..]);
    OutsideTurn(t, f, ps[0].text);
    assert TrimLeft("") == "";
    assert "" + w == w && "" + (Trimmed(f.trim, s) + w) == Trimmed(f.trim, s) + w;
    if g.replying {
      assert Emptied(g) == g && Flush(g) == "";
    }
  }

  // ---------- inside a block ----------

  /** A tag stands only where each of its characters does. */
  lemma {:induction false} Differs(s: string, i: nat, k: nat, tag: string)
    requires k < |tag| && i + k < |s| && Lower(s[i + k]) != tag[k]
    ensures !FoldAt(s, i, tag)
  {
  }

  /** No tag that begins with another character starts here. */
  lemma {:induction false} NoStart(s: string, i: nat, tag: string)
    requires tag != "" && i < |s| && Lower(s[i]) != tag[0]
    ensures !FoldAt(s, i, tag)
  {
    Differs(s, i, 0, tag);
  }

  /** A beginning in which no closing tag starts can be left out. */
  lemma {:induction false} RestPast(t: Tags, trim: bool, trim': bool, s: string, n: nat)
    requires n <= |s| && forall j :: 0 <= j < n ==> !FoldAt(s, j, t.close)
    ensures Rest(t, true, trim, s) == Rest(t, true, trim', s[n..])
  {
    IndexShift(s, n, t.close);
    DropTwice(s, n, IndexFrom(s[n..], t.close, 0) + |t.close|);
  }

  /** p is a proper beginning of a closing tag, as a filter inside a block holds back. */
  predicate ClosingStart(t: Tags, p: string) {
    |p| < |t.close| && FoldAt(p, 0, t.close[..|p|])
  }

  lemma {:induction false} NoCloseInStart(t: Tags, p: string, b: string, j: nat)
    requires Plain(t) && ClosingStart(t, p) && 0 < j < |p|
    ensures !FoldAt(p + b, j, t.close)
  {
    assert Lower(p[0 + j]) == t.close[..|p|][j];
    assert (p + b)[j] == p[j];
    NoStart(p + b, j, t.close);
  }

  /** The start was not the closing tag: giving it up changes nothing. */
  lemma {:induction false} FalseStart(t: Tags, trim: bool, p: string, b: string)
    requires Plain(t) && ClosingStart(t, p) && !FoldAt(p + b, 0, t.close)
    ensures Rest(t, true, trim, p + b) == Rest(t, true, trim, b)
  {
    forall j | 0 <= j < |p| ensures !FoldAt(p + b, j, t.close) {
      if j > 0 {
        NoCloseInStart(t, p, b, j);
      }
    }
    assert (p + b)[|p|..] == b;
    RestPast(t, trim, trim, p + b, |p|);
  }

  /** What follows the closing tag that p begins. */
  function AfterClose(t: Tags, p: string, b: string): string
    requires FoldAt(p + b, 0, t.close)
  {
    (p + b)[|t.close|..]
  }

  lemma {:induction false} NoCloseInTail(t: Tags, p: string, b: string, j: nat)
    requires Plain(t) && ClosingStart(t, p) && p != "" && FoldAt(p + b, 0, t.close) && j < |t.close| - |p|
    ensures j < |b| && !FoldAt(b, j, t.close)
  {
    assert Lower((p + b)[0 + (|p| + j)]) == t.close[|p| + j];
    assert (p + b)[|p| + j] == b[j];
    NoStart(b, j, t.close);
  }

  lemma {:induction false} TailThenRest(t: Tags, p: string, b: string)
    requires ClosingStart(t, p) && FoldAt(p + b, 0, t.close)
    ensures |t.close| - |p| <= |b| && b[|t.close| - |p|..] == AfterClose(t, p, b)
  {
  }

  /** The start was the closing tag: read right, the block ends; given up, the text after the tag is read as if still inside. */
  lemma {:induction false} TrueStart(t: Tags, trim: bool, p: string, b: string)
    requires Plain(t) && ClosingStart(t, p) && p != "" && FoldAt(p + b, 0, t.close)
    ensures Rest(t, true, trim, p + b) == Rest(t, false, true, AfterClose(t, p, b))
    ensures Rest(t, true, trim, b) == Rest(t, true, true, AfterClose(t, p, b))
  {
    var n := |t.close| - |p|;
    IndexIsFirst(p + b, t.close, 0);
    TailThenRest(t, p, b);
    forall j | 0 <= j < n ensures !FoldAt(b, j, t.close) {
      NoCloseInTail(t, p, b, j);
    }
    RestPast(t, trim, true, b, n);
  }

  /** White space, then the opening tag if there is one: no closing tag starts in either. */
  lemma {:induction false} NoCloseInSpace(t: Tags, r: string, j: nat)
    requires Plain(t) && j < |r| - |TrimLeft(r)|
    ensures !FoldAt(r, j, t.close)
  {
    SpaceIsBlank(r, j);
    NoStart(r, j, t.close);
  }

  lemma {:induction false} SpaceIsBlank(r: string, j: nat)
    requires j < |r| - |TrimLeft(r)|
    ensures Blank(r[j]) && Lower(r[j]) == r[j]
    decreases |r|
  {
    if j > 0 {
      SpaceIsBlank(r[1..], j - 1);
    }
  }

  lemma {:induction false} NoCloseInOpen(t: Tags, r: string, k: nat)
    requires Plain(t) && FoldAt(r, 0, t.open) && k < |t.open|
    ensures !FoldAt(r, k, t.close)
  {
    assert Lower(r[0 + k]) == t.open[k];
    if k == 0 {
      assert Lower(r[0 + 1]) == t.open[1];
      Differs(r, 0, 1, t.close);
    } else {
      NoStart(r, k, t.close);
    }
  }

  lemma {:induction false} DroppedEitherWay(t: Tags, r: string)
    requires Plain(t) && DroppedAnyway(t, r)
    ensures Rest(t, false, true, r) == Rest(t, true, true, r)
  {
    var n := |r| - |TrimLeft(r)|;
    TrimLeftIsSuffix(r);
    forall j | 0 <= j < n ensures !FoldAt(r, j, t.close) {
      NoCloseInSpace(t, r, j);
    }
    RestPast(t, true, true, r, n);
    if Opens(t, r) {
      var rest := TrimLeft(r);
      forall k | 0 <= k < |t.open| ensures !FoldAt(rest, k, t.close) {
        NoCloseInOpen(t, rest, k);
      }
      RestPast(t, true, true, rest, |t.open|);
    } else {
      IndexIsFirst("", t.close, 0);
    }
  }

  lemma {:induction false} IndexInSuffix(a: string, b: string, tag: string)
    ensures var i, k := IndexFrom(a + b, tag, 0), IndexFrom(b, tag, 0);
      (k >= 0 ==> 0 <= i <= |a| + k) && (i < 0 ==> k < 0)
  {
    IndexIsFirst(a + b, tag, 0);
    IndexIsFirst(b, tag, 0);
    var k := IndexFrom(b, tag, 0);
    if k >= 0 {
      assert (a + b)[|a|..] == b;
      assert (a + b)[|a| + k..] == b[k..];
      FoldAtSlice(a + b, |a| + k, tag);
      FoldAtSlice(b, k, tag);
    }
  }

  /** However the pieces end, nothing comes out of a block before its first closing tag. */
  ghost predicate KeepsInside(t: Tags, f: Filter, ps: seq<Piece>) {
    var s := f.pending + TextOf(ps);
    var i := IndexFrom(s, t.close, 0);
    if i < 0 then Given(t, f, ps) == "" else |Given(t, f, ps)| <= |s| - i - |t.close|
  }

  lemma {:induction false} ClosedKeeps(t: Tags, f: Filter, ps: seq<Piece>)
    requires ps != [] && f.inside && !f.replying && IndexFrom(f.pending + ps[0].text, t.close, 0) >= 0
    ensures KeepsInside(t, f, ps)
  {
    var a, b := f.pending + ps[0].text, TextOf(ps[1..]);
    var i := IndexFrom(a, t.close, 0);
    var left := a[i + |t.close|..];
    Regroup(f.pending, ps[0].text, b);
    IndexAppend(a, b, t.close);
    ScanClosed(t, f.trim, a, i, left);
    ScanShrinks(t, false, true, left);
    var g := Push(t, f, ps[0].text).0;
    GivenShrinks(t, if ps[0].ends then Emptied(g) else g, ps[1..]);
  }

  lemma {:induction false} UnclosedGives(t: Tags, f: Filter, ps: seq<Piece>)
    requires ps != [] && f.inside && !f.replying && IndexFrom(f.pending + ps[0].text, t.close, 0) < 0
    ensures var g := Filter(false, true, PartialTail(f.pending + ps[0].text, t.close), f.trim);
      Given(t, f, ps) == Given(t, if ps[0].ends then Emptied(g) else g, ps[1..])
  {
    var a := f.pending + ps[0].text;
    ScanUnclosed(t, f.trim, a);
    var g := Filter(false, true, PartialTail(a, t.close), f.trim);
    var w := Given(t, if ps[0].ends then Emptied(g) else g, ps[1..]);
    assert "" + w == w;
  }

  lemma {:induction false} UnclosedKeeps(t: Tags, f: Filter, ps: seq<Piece>)
    requires ps != [] && f.inside && !f.replying && IndexFrom(f.pending + ps[0].text, t.close, 0) < 0
    requires var g := Filter(false, true, PartialTail(f.pending + ps[0].text, t.close), f.trim);
      KeepsInside(t, if ps[0].ends then Emptied(g) else g, ps[1..])
    ensures KeepsInside(t, f, ps)
  {
    var a, b := f.pending + ps[0].text, TextOf(ps[1..]);
    Regroup(f.pending, ps[0].text, b);
    UnclosedGives(t, f, ps);
    if ps[0].ends {
      assert "" + b == b;
      IndexInSuffix(a, b, t.close);
    } else {
      IndexAfterTail(a, b, t.close);
    }
  }

  lemma {:induction false} InsideKeeps(t: Tags, f: Filter, ps: seq<Piece>)
    requires f.inside && !f.replying
    ensures KeepsInside(t, f, ps)
    decreases |ps|
  {
    if ps != [] {
      var a := f.pending + ps[0].text;
      if IndexFrom(a, t.close, 0) >= 0 {
        ClosedKeeps(t, f, ps);
      } else {
        var g := Filter(false, true, PartialTail(a, t.close), f.trim);
        InsideKeeps(t, if ps[0].ends then Emptied(g) else g, ps[1..]);
        UnclosedKeeps(t, f, ps);
      }
    }
  }

  // ---------- one finish reason ----------

  /** What a filter inside a block holds back is the beginning of a closing tag. */
  lemma {:induction false} HeldInside(t: Tags, inside: bool, trim: bool, s: string)
    ensures var g := ScanFrom(t, inside, trim, s).0; g.inside ==> ClosingStart(t, g.pending)
    decreases |s|
  {
    if inside {
      var i := IndexFrom(s, t.close, 0);
      if i >= 0 {
        HeldInside(t, false, true, s[i + |t.close|..]);
      } else {
        var k := |PartialTail(s, t.close)|;
        TailMatchesItself(s, t.close);
        FoldAtSlice(s, |s| - k, t.close[..k]);
      }
    } else if FoldAt(TrimLeft(s), 0, t.open) {
      HeldInside(t, true, trim, TrimLeft(s)[|t.open|..]);
    }
  }

  /** After a start is given up that closed the block, the next closing tag comes after the white space that follows. */
  lemma {:induction false} CloseComesLate(t: Tags, p: string, b: string, r: string, i: nat)
    requires Plain(t) && ClosingStart(t, p) && p != "" && FoldAt(p + b, 0, t.close) && r == AfterClose(t, p, b)
    requires FoldAt(b, i, t.close)
    ensures i + |TrimLeft(r)| >= |b|
  {
    var n := |t.close| - |p|;
    TailThenRest(t, p, b);
    if i < n {
      NoCloseInTail(t, p, b, i);
    } else if i < n + |r| - |TrimLeft(r)| {
      FoldInSuffix(b, n, i, t.close);
      NoCloseInSpace(t, r, i - n);
    }
  }

  lemma {:induction false} FoldInSuffix(s: string, n: nat, i: nat, tag: string)
    requires n <= i <= |s|
    ensures FoldAt(s, i, tag) <==> FoldAt(s[n..], i - n, tag)
  {
    assert s[n..][i - n..] == s[i..];
    FoldAtSlice(s, i, tag);
    FoldAtSlice(s[n..], i - n, tag);
  }

  /** What comes then is less than what should. */
  lemma {:induction false} MissedClose(t: Tags, g: Filter, ps: seq<Piece>)
    requires Plain(t) && g.inside && !g.replying && ClosingStart(t, g.pending) && g.pending != ""
    requires FoldAt(g.pending + TextOf(ps), 0, t.close) && !DroppedAnyway(t, AfterClose(t, g.pending, TextOf(ps)))
    ensures Given(t, Emptied(g), ps) != Rest(t, true, g.trim, g.pending + TextOf(ps))
  {
    var p, b := g.pending, TextOf(ps);
    var r := AfterClose(t, p, b);
    TrueStart(t, g.trim, p, b);
    assert Rest(t, false, true, r) == TrimLeft(r);
    assert "" + b == b;
    InsideKeeps(t, Emptied(g), ps);
    var i := IndexFrom(b, t.close, 0);
    if i >= 0 {
      IndexIsFirst(b, t.close, 0);
      CloseComesLate(t, p, b, r, i);
    }
  }

  /** Inside a block: giving up the start does no harm exactly when it can go and what follows is right. */
  lemma {:induction false} CutInside(t: Tags, g: Filter, ps: seq<Piece>)
    requires Plain(t) && g.inside && !g.replying && ClosingStart(t, g.pending) && g.pending != ""
    ensures Flush(g) + Given(t, Emptied(g), ps) == ToCome(t, g, TextOf(ps)) <==>
            StartCanGo(t, g, TextOf(ps)) && Given(t, Emptied(g), ps) == ToCome(t, Emptied(g), TextOf(ps))
  {
    var p, b, w := g.pending, TextOf(ps), Given(t, Emptied(g), ps);
    assert "" + w == w && "" + b == b;
    if !FoldAt(p + b, 0, t.close) {
      FalseStart(t, g.trim, p, b);
    } else if DroppedAnyway(t, AfterClose(t, p, b)) {
      TrueStart(t, g.trim, p, b);
      DroppedEitherWay(t, AfterClose(t, p, b));
    } else {
      MissedClose(t, g, ps);
    }
  }

  /** After a block, or where white space is trimmed, no text begins with white space. */
  lemma {:induction false} RestIsTrimmed(t: Tags, inside: bool, trim: bool, s: string)
    requires inside || trim
    ensures var r := Rest(t, inside, trim, s); r == "" || !Blank(r[0])
    decreases |s|
  {
    if inside {
      var i := IndexFrom(s, t.close, 0);
      if i >= 0 {
        RestIsTrimmed(t, false, true, s[i + |t.close|..]);
      }
    } else if FoldAt(TrimLeft(s), 0, t.open) {
      RestIsTrimmed(t, true, trim, TrimLeft(s)[|t.open|..]);
    } else {
      TrimLeftIsSuffix(s);
    }
  }

  lemma {:induction false} SameFront(p: string, x: string, y: string)
    ensures p + x == p + y <==> x == y
  {
    if p + x == p + y {
      assert x == (p + x)[|p|..] && y == (p + y)[|p|..];
    }
  }

  /** What a filter that holds back white space gives for the text to come. */
  lemma {:induction false} AfterSpace(t: Tags, trim: bool, p: string, b: string)
    requires TrimLeft(p) == ""
    ensures Rest(t, false, trim, p + b) == if trim || Opens(t, b) then Rest(t, false, trim, b) else p + Rest(t, false, trim, b)
  {
    TrimLeftAll(p, b);
  }

  /** White space held back. */
  lemma {:induction false} CutSpace(t: Tags, g: Filter, ps: seq<Piece>)
    requires !g.inside && !g.replying && g.pending != "" && TrimLeft(g.pending) == ""
    ensures Flush(g) + Given(t, Emptied(g), ps) == ToCome(t, g, TextOf(ps)) <==>
            StartCanGo(t, g, TextOf(ps)) && Given(t, Emptied(g), ps) == ToCome(t, Emptied(g), TextOf(ps))
  {
    var p, b, w := g.pending, TextOf(ps), Given(t, Emptied(g), ps);
    assert "" + w == w && "" + b == b;
    AfterSpace(t, g.trim, p, b);
    if g.trim {
      assert Flush(g) == "";
    } else if Opens(t, b) {
      RestIsTrimmed(t, true, false, TrimLeft(b)[|t.open|..]);
      assert (p + w)[0] == p[0] && Blank(p[0]);
    } else {
      SameFront(p, w, Rest(t, false, false, b));
    }
  }

  /** A start of an opening tag that was one: the rest of the tag is read as reply, and all of it comes out. */
  lemma {:induction false} TagTailPasses(t: Tags, f: Filter, ps: seq<Piece>)
    requires !f.replying && !f.inside && f.pending == "" && TextOf(ps) != ""
    requires var c := TextOf(ps)[0]; !Blank(c) && Lower(c) != t.open[0]
    ensures Given(t, f, ps) == TextOf(ps)
    decreases |ps|
  {
    var text, rest := ps[0].text, ps[1..];
    if text == "" {
      NothingPushed(t, f);
      TagTailPasses(t, f, rest);
      assert "" + Given(t, f, rest) == Given(t, f, rest) && "" + TextOf(rest) == TextOf(rest);
    } else {
      assert TextOf(ps)[0] == text[0] && "" + text == text;
      NoStart(text, 0, t.open);
      if |text| < |t.open| {
        NoStart(text, 0, t.open[..|text|]);
      }
      OutsideTurn(t, f, text);
      var g := Filter(true, false, "", f.trim);
      ReplyPasses(t, g, rest);
      assert TrimLeft("") == "";
      assert "" + TextOf(rest) == TextOf(rest);
    }
  }

  /** What a filter that holds back the start of an opening tag gives for the text to come. */
  lemma {:induction false} AfterStart(t: Tags, trim: bool, p: string, b: string)
    requires TrimLeft(p) != "" && !Opens(t, p + b)
    ensures Rest(t, false, trim, p + b) == Trimmed(trim, p) + b
  {
    TrimLeftAppend(p, b);
  }

  /** The rest of an opening tag that a start p was of: it cannot open a block itself. */
  lemma {:induction false} TagTail(t: Tags, trim: bool, p: string, b: string)
    requires Plain(t) && TrimLeft(p) != "" && MayBecomeOpen(t, TrimLeft(p)) && Opens(t, p + b)
    ensures b != "" && !Blank(b[0]) && Lower(b[0]) != t.open[0]
    ensures |Rest(t, false, trim, p + b)| < |b|
  {
    var q := TrimLeft(p);
    TrimLeftAppend(p, b);
    assert Lower((q + b)[0 + |q|]) == t.open[|q|];
    assert (q + b)[|q|] == b[0];
    RestIsSuffix(t, true, trim, (q + b)[|t.open|..]);
  }

  /** The start of an opening tag held back: what follows it is reply, so all of it must pass. */
  lemma {:induction false} CutStart(t: Tags, g: Filter, ps: seq<Piece>)
    requires Plain(t) && !g.inside && !g.replying && TrimLeft(g.pending) != "" && MayBecomeOpen(t, TrimLeft(g.pending))
    ensures Flush(g) + Given(t, Emptied(g), ps) == ToCome(t, g, TextOf(ps)) <==>
            StartCanGo(t, g, TextOf(ps)) && AllPasses(t, Emptied(g), ps)
  {
    var p, b, w := g.pending, TextOf(ps), Given(t, Emptied(g), ps);
    assert "" + b == b;
    if Opens(t, p + b) {
      TagTail(t, g.trim, p, b);
      TagTailPasses(t, Emptied(g), ps);
    } else {
      AfterStart(t, g.trim, p, b);
      SameFront(Trimmed(g.trim, p), w, b);
      PassesExactly(t, Emptied(g), ps);
    }
  }

  // ---------- any number of finish reasons ----------

  lemma {:induction false} EmptiedSettles(t: Tags, g: Filter)
    requires Settled(t, g)
    ensures Settled(t, Emptied(g))
  {
    assert TrimLeft("") == "" && FoldAt("", 0, t.open[..0]);
    IndexIsFirst("", t.close, 0);
  }

  /** The filter after a piece, and what it holds back. */
  lemma {:induction false} AfterPiece(t: Tags, f: Filter, text: string)
    requires Settled(t, f)
    ensures var g := Push(t, f, text).0;
      && Settled(t, g)
      && (g.pending != "" ==> !g.replying)
      && (g.pending != "" && g.inside ==> ClosingStart(t, g.pending))
  {
    PushSettles(t, f, text);
    if !f.replying {
      HeldInside(t, f.inside, f.trim, f.pending + text);
    }
  }

  /** A finish reason that comes while something is held back. */
  lemma {:induction false} CutExactly(t: Tags, g: Filter, ps: seq<Piece>)
    requires Plain(t) && Settled(t, g) && !g.replying && g.pending != "" && (g.inside ==> ClosingStart(t, g.pending))
    requires Given(t, Emptied(g), ps) == ToCome(t, Emptied(g), TextOf(ps)) <==> NoHarm(t, Emptied(g), ps)
    ensures Flush(g) + Given(t, Emptied(g), ps) == ToCome(t, g, TextOf(ps)) <==>
            && StartCanGo(t, g, TextOf(ps))
            && if !g.inside && TrimLeft(g.pending) != "" then AllPasses(t, Emptied(g), ps) else NoHarm(t, Emptied(g), ps)
  {
    if g.inside {
      CutInside(t, g, ps);
    } else if TrimLeft(g.pending) == "" {
      CutSpace(t, g, ps);
    } else {
      CutStart(t, g, ps);
    }
  }

  /** One piece: what it and the rest give is right exactly when what comes after its text is. */
  lemma {:induction false} PieceExactly(t: Tags, f: Filter, ps: seq<Piece>)
    requires ps != []
    ensures var (g, out) := Push(t, f, ps[0].text);
      var w := if ps[0].ends then Flush(g) + Given(t, Emptied(g), ps[1..]) else Given(t, g, ps[1..]);
      Given(t, f, ps) == ToCome(t, f, TextOf(ps)) <==> w == ToCome(t, g, TextOf(ps[1..]))
  {
    var (g, out) := Push(t, f, ps[0].text);
    var w := if ps[0].ends then Flush(g) + Given(t, Emptied(g), ps[1..]) else Given(t, g, ps[1..]);
    PushSplit(t, f, ps[0].text, TextOf(ps[1..]));
    SameFront(out, w, ToCome(t, g, TextOf(ps[1..])));
  }

  /** From any state a filter can be in: what is given is what is due exactly when no finish reason does harm. */
  lemma {:induction false} NoHarmExactly(t: Tags, f: Filter, ps: seq<Piece>)
    requires Plain(t) && Settled(t, f)
    ensures Given(t, f, ps) == ToCome(t, f, TextOf(ps)) <==> NoHarm(t, f, ps)
    decreases |ps|
  {
    if ps == [] {
      FinishNothing(t, f);
    } else {
      var g, rest := Push(t, f, ps[0].text).0, ps[1..];
      PieceExactly(t, f, ps);
      AfterPiece(t, f, ps[0].text);
      if !ps[0].ends {
        NoHarmExactly(t, g, rest);
      } else if g.pending == "" {
        NoHarmExactly(t, g, rest);
        NothingFlushed(t, g, rest);
      } else {
        EmptiedSettles(t, g);
        NoHarmExactly(t, Emptied(g), rest);
        CutExactly(t, g, rest);
      }
    }
  }

  lemma {:induction false} NothingFlushed(t: Tags, g: Filter, ps: seq<Piece>)
    requires g.pending == ""
    ensures Flush(g) + Given(t, Emptied(g), ps) == Given(t, g, ps)
  {
    assert TrimLeft("") == "" && "" + Given(t, g, ps) == Given(t, g, ps);
  }

  /** Over a whole reply: what comes out is the stripped reply exactly when no finish reason does harm. */
  lemma {:induction false} StrippedExactly(t: Tags, ps: seq<Piece>)
    requires Plain(t)
    ensures Given(t, FRESH, ps) == Strip(t, TextOf(ps)) <==> NoHarm(t, FRESH, ps)
  {
    FreshSettled(t);
    NoHarmExactly(t, FRESH, ps);
    ToComeIsFinish(t, FRESH, TextOf(ps));
  }

  // ---------- a single cut, in closed form ----------

  /** No finish reason comes while something is held back. */
  predicate Uncut(t: Tags, f: Filter, ps: seq<Piece>)
    decreases |ps|
  {
    ps == [] ||
    var g := Push(t, f, ps[0].text).0;
    (!ps[0].ends || g.pending == "") && Uncut(t, g, ps[1..])
  }

  lemma {:induction false} UncutDoesNoHarm(t: Tags, f: Filter, ps: seq<Piece>)
    requires Uncut(t, f, ps)
    ensures NoHarm(t, f, ps)
    decreases |ps|
  {
    if ps != [] {
      UncutDoesNoHarm(t, Push(t, f, ps[0].text).0, ps[1..]);
    }
  }

  /** Giving up the start that g holds back does no harm to the text b that follows, if nothing else is given up. */
  predicate CutIsHarmless(t: Tags, g: Filter, b: string) {
    && StartCanGo(t, g, b)
    && (!g.inside && TrimLeft(g.pending) != "" ==> !Opens(t, b) && (g.trim ==> TrimLeft(b) == b))
  }

  lemma {:induction false} RestIsWhole(t: Tags, trim: bool, b: string)
    ensures Rest(t, false, trim, b) == b <==> !Opens(t, b) && (trim ==> TrimLeft(b) == b)
  {
    if Opens(t, b) {
      RestIsSuffix(t, true, trim, TrimLeft(b)[|t.open|..]);
    }
  }

  lemma {:induction false} UncutPasses(t: Tags, f: Filter, ps: seq<Piece>)
    requires Plain(t) && Settled(t, f) && !f.replying && !f.inside && f.pending == "" && Uncut(t, f, ps)
    ensures AllPasses(t, f, ps) <==> !Opens(t, TextOf(ps)) && (f.trim ==> TrimLeft(TextOf(ps)) == TextOf(ps))
  {
    assert "" + TextOf(ps) == TextOf(ps);
    PassesExactly(t, f, ps);
    UncutDoesNoHarm(t, f, ps);
    NoHarmExactly(t, f, ps);
    RestIsWhole(t, f.trim, TextOf(ps));
  }

  /** The filter where the pieces up to and with number i leave it. */
  function StateAt(t: Tags, f: Filter, ps: seq<Piece>, i: nat): Filter
    requires i < |ps|
  {
    Push(t, f, TextOf(ps[..i + 1])).0
  }

  /** Only finish reason i comes while something is held back. */
  ghost predicate CutOnceAt(t: Tags, f: Filter, ps: seq<Piece>, i: nat)
    requires i < |ps|
  {
    && Uncut(t, f, ps[..i])
    && ps[i].ends && StateAt(t, f, ps, i).pending != ""
    && Uncut(t, Emptied(StateAt(t, f, ps, i)), ps[i + 1..])
  }

  lemma {:induction false} StateAtTail(t: Tags, f: Filter, ps: seq<Piece>, i: nat)
    requires 0 < i < |ps|
    ensures StateAt(t, f, ps, i) == StateAt(t, Push(t, f, ps[0].text).0, ps[1..], i - 1)
  {
    assert ps[..i + 1][1..] == ps[1..][..i];
    PushSplit(t, f, ps[0].text, TextOf(ps[1..][..i]));
  }

  lemma {:induction false} StateAtHead(t: Tags, f: Filter, ps: seq<Piece>)
    requires ps != []
    ensures StateAt(t, f, ps, 0) == Push(t, f, ps[0].text).0
  {
    assert ps[..1][1..] == [] && ps[..1][0] == ps[0];
    assert TextOf(ps[..1]) == ps[0].text + "" == ps[0].text;
  }

  lemma {:induction false} CutHere(t: Tags, f: Filter, ps: seq<Piece>)
    requires Plain(t) && Settled(t, f) && ps != [] && CutOnceAt(t, f, ps, 0)
    ensures NoHarm(t, f, ps) <==> CutIsHarmless(t, StateAt(t, f, ps, 0), TextOf(ps[1..]))
  {
    var g, rest := Push(t, f, ps[0].text).0, ps[1..];
    StateAtHead(t, f, ps);
    AfterPiece(t, f, ps[0].text);
    EmptiedSettles(t, g);
    if !g.inside && TrimLeft(g.pending) != "" {
      UncutPasses(t, Emptied(g), rest);
    } else {
      UncutDoesNoHarm(t, Emptied(g), rest);
    }
  }

  /** One finish reason that comes while something is held back: it does no harm exactly when the text after it allows. */
  lemma {:induction false} OneCutExactly(t: Tags, f: Filter, ps: seq<Piece>, i: nat)
    requires Plain(t) && Settled(t, f) && i < |ps| && CutOnceAt(t, f, ps, i)
    ensures NoHarm(t, f, ps) <==> CutIsHarmless(t, StateAt(t, f, ps, i), TextOf(ps[i + 1..]))
    decreases |ps|
  {
    if i == 0 {
      CutHere(t, f, ps);
    } else {
      var g, rest := Push(t, f, ps[0].text).0, ps[1..];
      assert ps[..i][0] == ps[0] && ps[..i][1..] == rest[..i - 1] && rest[i..] == ps[i + 1..];
      StateAtTail(t, f, ps, i);
      AfterPiece(t, f, ps[0].text);
      OneCutExactly(t, g, rest, i - 1);
    }
  }

  /** Where no text follows, no finish reason does harm. */
  lemma {:induction false} QuietPasses(t: Tags, f: Filter, ps: seq<Piece>)
    requires TextOf(ps) == "" && f.pending == "" && !f.inside
    ensures AllPasses(t, f, ps)
    decreases |ps|
  {
    assert TrimLeft("") == "" && "" + "" == "";
    if ps != [] && !f.replying {
      NothingPushed(t, f);
      QuietPasses(t, f, ps[1..]);
    }
  }

  lemma {:induction false} QuietDoesNoHarm(t: Tags, f: Filter, ps: seq<Piece>)
    requires TextOf(ps) == "" && f.pending == ""
    ensures NoHarm(t, f, ps)
    decreases |ps|
  {
    if ps != [] {
      if !f.replying {
        NothingPushed(t, f);
      }
      QuietDoesNoHarm(t, f, ps[1..]);
    }
  }

  /** So a start can always be given up at the end of the text. */
  lemma {:induction false} EndDoesNoHarm(t: Tags, f: Filter, ps: seq<Piece>)
    requires Settled(t, f) && ps != [] && TextOf(ps[1..]) == ""
    ensures NoHarm(t, f, ps)
    decreases |ps|, 0
  {
    var g, rest := Push(t, f, ps[0].text).0, ps[1..];
    AfterPiece(t, f, ps[0].text);
    assert g.pending + "" == g.pending && TrimLeft("") == "";
    if g.pending == "" || g.inside || TrimLeft(g.pending) == "" {
      QuietDoesNoHarm(t, Emptied(g), rest);
    } else {
      QuietPasses(t, Emptied(g), rest);
    }
    if !ps[0].ends && g.pending != "" {
      QuietHeld(t, g, rest);
    }
  }

  lemma {:induction false} QuietHeld(t: Tags, g: Filter, ps: seq<Piece>)
    requires Settled(t, g) && TextOf(ps) == ""
    ensures NoHarm(t, g, ps)
    decreases |ps|, 1
  {
    if ps != [] {
      EndDoesNoHarm(t, g, ps);
    }
  }

  // ---------- the ways a finish reason does harm ----------

  /** The first character of the tags, held back. */
  lemma {:induction false} HeadHeld(t: Tags, trim: bool)
    requires Plain(t)
    ensures ScanFrom(t, false, trim, t.open[..1]) == (Filter(false, false, t.open[..1], trim), "")
    ensures TrimLeft(t.open[..1]) == t.open[..1]
  {
    var h := t.open[..1];
    assert TrimLeft(h) == h && MayBecomeOpen(t, h);
  }

  lemma {:induction false} LastDoesNoHarm(t: Tags, f: Filter, text: string)
    ensures NoHarm(t, f, [Piece(text, false)])
  {
    assert [Piece(text, false)][1..] == [];
    assert NoHarm(t, Push(t, f, text).0, []);
  }

  /** What the second of two pieces must be, when the first ends while g holds something back. */
  predicate SecondCanFollow(t: Tags, g: Filter, second: string) {
    && StartCanGo(t, g, second)
    && (!g.inside && TrimLeft(g.pending) != "" ==> AllPasses(t, Emptied(g), [Piece(second, false)]))
  }

  lemma {:induction false} TwoPieces(t: Tags, first: string, second: string, g: Filter)
    requires Push(t, FRESH, first).0 == g && g.pending != ""
    ensures NoHarm(t, FRESH, [Piece(first, true), Piece(second, false)]) <==> SecondCanFollow(t, g, second)
  {
    var ps := [Piece(first, true), Piece(second, false)];
    assert ps[1..] == [Piece(second, false)] && ps[1..][1..] == [];
    assert TextOf(ps[1..]) == second + "" == second;
    LastDoesNoHarm(t, Emptied(g), second);
  }

  /** A finish reason in the middle of the opening tag: the tag comes out as text. */
  lemma {:induction false} CutOpeningTag(t: Tags)
    requires Plain(t)
    ensures !NoHarm(t, FRESH, [Piece(t.open[..1], true), Piece(t.open[1..], false)])
  {
    var h, tail := t.open[..1], t.open[1..];
    HeadHeld(t, false);
    assert "" + h == h;
    TwoPieces(t, h, tail, Filter(false, false, h, false));
    assert h + tail == t.open && TrimLeft(t.open) == t.open;
  }

  lemma {:induction false} ClosingCannotGo(t: Tags, g: Filter, after: string)
    requires Plain(t) && !DroppedAnyway(t, after) && g.inside && g.pending == t.close[..1]
    ensures !StartCanGo(t, g, t.close[1..] + after)
  {
    var b := t.close[1..] + after;
    assert g.pending + b == t.close + after;
    assert (t.close + after)[|t.close|..] == after;
    TagStands(t.close, after);
  }

  /** A finish reason in the middle of the closing tag: the block does not end there. */
  lemma {:induction false} CutClosingTag(t: Tags, after: string)
    requires Plain(t) && !DroppedAnyway(t, after)
    ensures !NoHarm(t, FRESH, [Piece(t.open + t.close[..1], true), Piece(t.close[1..] + after, false)])
  {
    var h := t.close[..1];
    var g := Filter(false, true, h, false);
    OpenThen(t, h);
    StartHeldInside(t, h);
    TwoPieces(t, t.open + h, t.close[1..] + after, g);
    ClosingCannotGo(t, g, after);
  }

  /** White space after a block is trimmed even from text that follows a start let out. */
  lemma {:induction false} TrimPersists(t: Tags, space: char, c: char)
    requires Plain(t) && Blank(space) && !Blank(c) && Lower(c) != t.open[0]
    ensures !NoHarm(t, FRESH, [Piece(t.open + (t.close + t.open[..1]), true), Piece([space, c], false)])
  {
    var h, second := t.open[..1], [space, c];
    OpenThen(t, t.close + h);
    HeadHeld(t, true);
    TagStands(t.close, h);
    IndexIsFirst(t.close + h, t.close, 0);
    assert (t.close + h)[|t.close|..] == h;
    ScanClosed(t, false, t.close + h, 0, h);
    var g := Filter(false, false, h, true);
    TwoPieces(t, t.open + (t.close + h), second, g);
    assert second[1..] == [c];
    assert TrimLeft([c]) == [c];
    assert TrimLeft(second) == [c];
    NotPassed(t, Emptied(g), second, c);
  }

  lemma {:induction false} NotPassed(t: Tags, f: Filter, text: string, c: char)
    requires f == Filter(false, false, "", true) && TrimLeft(text) == [c] && text != [c] && Lower(c) != t.open[0]
    ensures !AllPasses(t, f, [Piece(text, false)])
  {
    assert "" + text == text;
    NoStart([c], 0, t.open);
    if 1 < |t.open| {
      NoStart([c], 0, t.open[..1]);
    }
    assert !MayBecomeOpen(t, [c]);
    OutsideTurn(t, f, text);
  }

  lemma {:induction false} TagStands(tag: string, after: string)
    requires forall j :: 0 <= j < |tag| ==> Lower(tag[j]) == tag[j]
    ensures FoldAt(tag + after, 0, tag)
  {
    forall j | 0 <= j < |tag| ensures Lower((tag + after)[0 + j]) == tag[j] {
      assert (tag + after)[0 + j] == tag[j];
    }
  }

  /** A reply that begins with an opening tag is read on inside the block. */
  lemma {:induction false} OpenThen(t: Tags, s: string)
    requires Plain(t)
    ensures Push(t, FRESH, t.open + s) == ScanFrom(t, true, false, s)
  {
    TagStands(t.open, s);
    assert "" + (t.open + s) == t.open + s;
    assert TrimLeft(t.open + s) == t.open + s;
    assert (t.open + s)[|t.open|..] == s;
  }

  lemma {:induction false} StartHeldInside(t: Tags, h: string)
    requires Plain(t) && h == t.close[..1]
    ensures ScanFrom(t, true, false, h) == (Filter(false, true, h, false), "")
  {
    IndexIsFirst(h, t.close, 0);
    assert TailMatches(h, t.close, 1);
    TailIsMaximal(h, t.close, 1);
    assert PartialTail(h, t.close) == h;
  }

  /** White space held back does no harm to a reply that opens no block, as when " " comes with a finish reason and then "hi". */
  lemma {:induction false} SpaceThenReply(t: Tags, space: string, reply: string)
    requires space != "" && TrimLeft(space) == "" && !Opens(t, reply)
    ensures NoHarm(t, FRESH, [Piece(space, true), Piece(reply, false)])
  {
    assert "" + space == space && FoldAt("", 0, t.open[..0]);
    TwoPieces(t, space, reply, Filter(false, false, space, false));
  }
}
