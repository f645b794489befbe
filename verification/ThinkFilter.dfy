/**
 Model of internal/httpapi/thinking.go: the filter that cuts the leading
 <think>...</think> blocks out of a streamed reply.

 `ScanFrom` is the loop of `push` as a function of the text still to be read;
 the class `ThinkFilter` is the mutable object the gateway keeps per stream.
 Text is a sequence of chars; the source works on bytes, which are the chars
 below 256.
 */
module ThinkFilters {
  import opened Common

  // ---------- ASCII case folding and searching ----------

  function Lower(c: char): char {
    if 'A' <= c <= 'Z' then (c as int + 32) as char else c
  }

  /** The ASCII lower-case tag stands at offset i of s, ignoring ASCII case. */
  predicate FoldAt(s: string, i: int, tag: string) {
    0 <= i && i + |tag| <= |s| && forall j :: 0 <= j < |tag| ==> Lower(s[i + j]) == tag[j]
  }

  /** c is the character of a tag, or its ASCII capital, which stands 32 places before it. */
  ghost predicate SameLetter(c: char, tag: char) {
    (c == tag && !('A' <= tag <= 'Z')) || ('A' <= c <= 'Z' && c as int + 32 == tag as int)
  }

  /** Folding is ASCII folding, character by character, and touches nothing but capitals. */
  lemma {:induction false} FoldsLetters(s: string, i: nat, tag: string)
    ensures FoldAt(s, i, tag) <==> i + |tag| <= |s| && forall j :: 0 <= j < |tag| ==> SameLetter(s[i + j], tag[j])
  {
    if i + |tag| <= |s| {
      forall j | 0 <= j < |tag| ensures Lower(s[i + j]) == tag[j] <==> SameLetter(s[i + j], tag[j]) {
      }
    }
  }

  method HasAsciiFoldPrefix(s: string, prefix: string) returns (yes: bool)
    ensures yes == FoldAt(s, 0, prefix)
    ensures yes <==> |prefix| <= |s| && forall j :: 0 <= j < |prefix| ==> SameLetter(s[0 + j], prefix[j])
  {
    FoldsLetters(s, 0, prefix);
    if |s| < |prefix| {
      return false;
    }
    for i := 0 to |prefix|
      invariant forall j :: 0 <= j < i ==> Lower(s[0 + j]) == prefix[j]
    {
      if Lower(s[i]) != prefix[i] {
        assert Lower(s[0 + i]) != prefix[i];
        return false;
      }
    }
    return true;
  }

  /** i is the offset of the first occurrence of tag at or after from, or -1. */
  ghost predicate IsFirst(s: string, tag: string, from: nat, i: int) {
    && (i == -1 || (from <= i && FoldAt(s, i, tag)))
    && (forall j :: from <= j && (i == -1 || j < i) ==> !FoldAt(s, j, tag))
  }

  function IndexFrom(s: string, tag: string, from: nat): (i: int)
    requires from <= |s|
    ensures i == -1 || from <= i <= |s| - |tag|
    decreases |s| - from
  {
    if FoldAt(s, from, tag) then from
    else if from == |s| then -1
    else IndexFrom(s, tag, from + 1)
  }

  lemma {:induction false} IndexIsFirst(s: string, tag: string, from: nat)
    requires from <= |s|
    ensures IsFirst(s, tag, from, IndexFrom(s, tag, from))
    decreases |s| - from
  {
    if !FoldAt(s, from, tag) && from < |s| {
      IndexIsFirst(s, tag, from + 1);
    }
  }

  /** The first occurrence is the only offset that can be called first. */
  lemma {:induction false} FirstIsUnique(s: string, tag: string, i: int)
    requires IsFirst(s, tag, 0, i)
    ensures IndexFrom(s, tag, 0) == i
  {
    IndexIsFirst(s, tag, 0);
  }

  method IndexAsciiFold(s: string, tag: string) returns (i: int)
    ensures i == IndexFrom(s, tag, 0)
  {
    i := 0;
    while i + |tag| <= |s|
      invariant 0 <= i
      invariant forall j :: 0 <= j < i ==> !FoldAt(s, j, tag)
    {
      var here := HasAsciiFoldPrefix(s[i..], tag);
      assert FoldAt(s[i..], 0, tag) == FoldAt(s, i, tag) by { FoldAtSlice(s, i, tag); }
      if here {
        FirstIsUnique(s, tag, i);
        return;
      }
      i := i + 1;
    }
    i := -1;
    FirstIsUnique(s, tag, -1);
  }

  lemma {:induction false} FoldAtSlice(s: string, i: nat, tag: string)
    requires i <= |s|
    ensures FoldAt(s[i..], 0, tag) == FoldAt(s, i, tag)
  {
    if FoldAt(s[i..], 0, tag) {
      forall j | 0 <= j < |tag|
        ensures Lower(s[i + j]) == tag[j]
      {
        assert s[i..][0 + j] == s[i + j];
      }
    }
    if FoldAt(s, i, tag) {
      forall j | 0 <= j < |tag|
        ensures Lower(s[i..][0 + j]) == tag[j]
      {
        assert s[i..][0 + j] == s[i + j];
      }
    }
  }

  /** The last n characters of s are a beginning of tag. */
  predicate TailMatches(s: string, tag: string, n: nat)
    requires n <= |s| && n <= |tag|
  {
    FoldAt(s, |s| - n, tag[..n])
  }

  /** The length of the longest tail of s, at most n, that is a prefix of tag. */
  function TailLength(s: string, tag: string, n: nat): (k: nat)
    requires n <= |s| && n < |tag|
    ensures k <= n
  {
    if n == 0 || TailMatches(s, tag, n) then n else TailLength(s, tag, n - 1)
  }

  lemma {:induction false} TailIsLongest(s: string, tag: string, n: nat)
    requires n <= |s| && n < |tag|
    ensures var k := TailLength(s, tag, n);
      TailMatches(s, tag, k) && forall m :: k < m <= n ==> !TailMatches(s, tag, m)
  {
    if n != 0 && !TailMatches(s, tag, n) {
      TailIsLongest(s, tag, n - 1);
    }
  }

  function TailBound(s: string, tag: string): nat
    requires tag != ""
  {
    if |tag| - 1 < |s| then |tag| - 1 else |s|
  }

  function PartialTail(s: string, tag: string): (tail: string)
    requires tag != ""
    ensures |tail| <= |s| && |tail| < |tag|
  {
    s[|s| - TailLength(s, tag, TailBound(s, tag))..]
  }

  method PartialTagTail(s: string, tag: string) returns (tail: string)
    requires tag != ""
    ensures tail == PartialTail(s, tag)
  {
    var n := TailBound(s, tag);
    while n > 0
      invariant 0 <= n <= TailBound(s, tag)
      invariant TailLength(s, tag, n) == TailLength(s, tag, TailBound(s, tag))
    {
      var here := HasAsciiFoldPrefix(s[|s| - n..], tag[..n]);
      FoldAtSlice(s, |s| - n, tag[..n]);
      if here {
        return s[|s| - n..];
      }
      n := n - 1;
    }
    return "";
  }

  predicate Blank(c: char) {
    c == ' ' || c == '\t' || c == '\r' || c == '\n'
  }

  /** strings.TrimLeft of " \t\r\n". */
  function TrimLeft(s: string): (r: string)
    ensures |r| <= |s|
  {
    if s != "" && Blank(s[0]) then TrimLeft(s[1..]) else s
  }

  lemma {:induction false} TrimLeftIsSuffix(s: string)
    ensures var r := TrimLeft(s);
      r == s[|s| - |r|..] && TrimLeft(r) == r && (r == "" || !Blank(r[0]))
  {
    if s != "" && Blank(s[0]) {
      TrimLeftIsSuffix(s[1..]);
    }
  }

  /** What goes is spaces, tabs and line ends, and no such character is left in front. */
  lemma {:induction false} TrimsWhiteSpace(s: string)
    ensures var r := TrimLeft(s);
      && (forall i :: 0 <= i < |s| - |r| ==> s[i] in " \t\r\n")
      && (r != "" ==> r[0] !in " \t\r\n") && s == s[..|s| - |r|] + r
  {
    TrimLeftIsSuffix(s);
    if s != "" && Blank(s[0]) {
      TrimsWhiteSpace(s[1..]);
    }
  }

  // ---------- the filter as a function ----------

  /** The opening and closing tag, in ASCII lower case. */
  datatype TagPair = TagPair(open: string, close: string)

  type Tags = t: TagPair | t.open != "" && t.close != "" && !Blank(t.open[0])
    witness TagPair("<think>", "</think>")

  const THINK: Tags := TagPair("<think>", "</think>")

  datatype Filter = Filter(replying: bool, inside: bool, pending: string, trim: bool)

  const FRESH := Filter(false, false, "", false)

  function Trimmed(trim: bool, s: string): string {
    if trim then TrimLeft(s) else s
  }

  /** rest is a proper, possibly empty, beginning of an opening tag. */
  predicate MayBecomeOpen(t: Tags, rest: string) {
    |rest| < |t.open| && FoldAt(rest, 0, t.open[..|rest|])
  }

  /** The loop of push, from the point where s is still to be read. */
  function ScanFrom(t: Tags, inside: bool, trim: bool, s: string): (Filter, string)
    decreases |s|
  {
    if inside then
      var i := IndexFrom(s, t.close, 0);
      if i < 0 then (Filter(false, true, PartialTail(s, t.close), trim), "")
      else ScanFrom(t, false, true, s[i + |t.close|..])
    else
      var rest := TrimLeft(s);
      if FoldAt(rest, 0, t.open) then ScanFrom(t, true, trim, rest[|t.open|..])
      else if MayBecomeOpen(t, rest) then (Filter(false, false, s, trim), "")
      else (Filter(true, false, "", trim), Trimmed(trim, s))
  }

  function Push(t: Tags, f: Filter, s: string): (Filter, string) {
    if f.replying then (f, s) else ScanFrom(t, f.inside, f.trim, f.pending + s)
  }

  function Flush(f: Filter): string {
    if f.inside then "" else Trimmed(f.trim, f.pending)
  }

  /** stripThinkBlocks: one push of the whole reply, then a flush. */
  function Strip(t: Tags, s: string): string {
    Finish(t, FRESH, s)
  }

  /** What a filter still gives for the text s followed by the end of the reply. */
  function Finish(t: Tags, f: Filter, s: string): string {
    var (g, out) := Push(t, f, s);
    out + Flush(g)
  }

  function PushAll(t: Tags, f: Filter, chunks: seq<string>): (Filter, string)
    decreases |chunks|
  {
    if chunks == [] then (f, "")
    else
      var (g, out) := Push(t, f, chunks[0]);
      var (h, rest) := PushAll(t, g, chunks[1..]);
      (h, out + rest)
  }

  function Concat(chunks: seq<string>): string {
    if chunks == [] then "" else chunks[0] + Concat(chunks[1..])
  }

  // ---------- the filter as the mutable object of the source ----------

  class ThinkFilter {
    var replying: bool
    var inside: bool
    var pending: string
    var trim: bool

    ghost function State(): Filter
      reads this
    {
      Filter(replying, inside, pending, trim)
    }

    constructor ()
      ensures State() == FRESH
    {
      replying, inside, pending, trim := false, false, "", false;
    }

    method PushText(text: string) returns (out: string)
      modifies this
      ensures (State(), out) == Push(THINK, old(State()), text)
    {
      if replying {
        return text;
      }
      var s := pending + text;
      pending := "";
      while true
        invariant !replying && pending == ""
        invariant ScanFrom(THINK, inside, trim, s) == Push(THINK, old(State()), text)
        decreases |s|
      {
        if inside {
          var i := IndexAsciiFold(s, THINK.close);
          if i < 0 {
            pending := PartialTagTail(s, THINK.close);
            return "";
          }
          s := s[i + |THINK.close|..];
          inside, trim := false, true;
          continue;
        }
        var rest := TrimLeft(s);
        var opens := HasAsciiFoldPrefix(rest, THINK.open);
        if opens {
          s := rest[|THINK.open|..];
          inside := true;
          continue;
        }
        var may := false;
        if |rest| < |THINK.open| {
          may := HasAsciiFoldPrefix(rest, THINK.open[..|rest|]);
        }
        if may {
          pending := s;
          return "";
        }
        replying := true;
        return Trimmed(trim, s);
      }
    }

    method FlushText() returns (out: string)
      modifies this
      ensures out == Flush(old(State()))
      ensures State() == old(State()).(pending := "")
    {
      var held := pending;
      pending := "";
      if inside {
        return "";
      }
      return Trimmed(trim, held);
    }
  }

  method StripThinkBlocks(s: string) returns (out: string)
    ensures out == Strip(THINK, s)
  {
    var f := new ThinkFilter();
    var now := f.PushText(s);
    var tail := f.FlushText();
    return now + tail;
  }

  // ---------- what a filter gives in all ----------

  /** The loop of push and the final flush in one: what s still gives. */
  function Rest(t: Tags, inside: bool, trim: bool, s: string): string
    decreases |s|
  {
    if inside then
      var i := IndexFrom(s, t.close, 0);
      if i < 0 then "" else Rest(t, false, true, s[i + |t.close|..])
    else
      var rest := TrimLeft(s);
      if FoldAt(rest, 0, t.open) then Rest(t, true, trim, rest[|t.open|..])
      else Trimmed(trim, s)
  }

  lemma {:induction false} ScanGivesRest(t: Tags, inside: bool, trim: bool, s: string)
    ensures var (g, out) := ScanFrom(t, inside, trim, s); out + Flush(g) == Rest(t, inside, trim, s)
    decreases |s|
  {
    if inside {
      var i := IndexFrom(s, t.close, 0);
      if i >= 0 {
        ScanGivesRest(t, false, true, s[i + |t.close|..]);
      }
    } else if FoldAt(TrimLeft(s), 0, t.open) {
      ScanGivesRest(t, true, trim, TrimLeft(s)[|t.open|..]);
    }
  }

  lemma {:induction false} FinishGivesRest(t: Tags, f: Filter, s: string)
    requires !f.replying
    ensures Finish(t, f, s) == Rest(t, f.inside, f.trim, f.pending + s)
  {
    ScanGivesRest(t, f.inside, f.trim, f.pending + s);
  }

  lemma {:induction false} StripGivesRest(t: Tags, s: string)
    ensures Strip(t, s) == Rest(t, false, false, s)
  {
    FinishGivesRest(t, FRESH, s);
    assert "" + s == s;
  }

  // ---------- cutting a reply into chunks changes nothing ----------

  lemma {:induction false} TrimLeftAppend(a: string, b: string)
    requires TrimLeft(a) != ""
    ensures TrimLeft(a + b) == TrimLeft(a) + b
  {
    if Blank(a[0]) {
      assert (a + b)[1..] == a[1..] + b;
      TrimLeftAppend(a[1..], b);
    }
  }

  lemma {:induction false} FoldAtAppend(a: string, b: string, i: nat, tag: string)
    requires i + |tag| <= |a|
    ensures FoldAt(a + b, i, tag) == FoldAt(a, i, tag)
  {
    assert forall k :: i <= k < i + |tag| ==> (a + b)[k] == a[k];
  }

  /** An occurrence in a longer text is found at the same place. */
  lemma {:induction false} IndexAppend(a: string, b: string, tag: string)
    requires IndexFrom(a, tag, 0) >= 0
    ensures IndexFrom(a + b, tag, 0) == IndexFrom(a, tag, 0)
  {
    var i, k := IndexFrom(a, tag, 0), IndexFrom(a + b, tag, 0);
    IndexIsFirst(a, tag, 0);
    IndexIsFirst(a + b, tag, 0);
    FoldAtAppend(a, b, i, tag);
    assert k != -1;
    if k < i {
      FoldAtAppend(a, b, k, tag);
    }
  }

  /** Dropping a beginning in which no occurrence starts shifts the first one. */
  lemma {:induction false} IndexShift(s: string, n: nat, tag: string)
    requires n <= |s|
    requires forall j :: 0 <= j < n ==> !FoldAt(s, j, tag)
    ensures var i, k := IndexFrom(s, tag, 0), IndexFrom(s[n..], tag, 0);
      if k < 0 then i < 0 else i == n + k
  {
    var i, k := IndexFrom(s, tag, 0), IndexFrom(s[n..], tag, 0);
    IndexIsFirst(s, tag, 0);
    IndexIsFirst(s[n..], tag, 0);
    forall j | n <= j <= |s|
      ensures FoldAt(s, j, tag) == FoldAt(s[n..], j - n, tag)
    {
      assert s[n..][j - n..] == s[j..];
      FoldAtSlice(s, j, tag);
      FoldAtSlice(s[n..], j - n, tag);
    }
    if k >= 0 {
      assert FoldAt(s, n + k, tag);
    }
    if i >= 0 {
      assert FoldAt(s[n..], i - n, tag);
    }
  }

  /** No closing tag of a + b starts before the partial tail of a. */
  lemma {:induction false} NoTagBeforeTail(a: string, b: string, tag: string, j: nat)
    requires tag != "" && IndexFrom(a, tag, 0) < 0
    requires j < |a| - |PartialTail(a, tag)|
    ensures !FoldAt(a + b, j, tag)
  {
    IndexIsFirst(a, tag, 0);
    if j + |tag| <= |a| {
      FoldAtAppend(a, b, j, tag);
    } else {
      TailIsLongest(a, tag, TailBound(a, tag));
      CutTag(a, b, tag, j);
      assert !TailMatches(a, tag, |a| - j);
    }
  }

  /** A tag that runs past the end of a leaves a beginning of itself there. */
  lemma {:induction false} CutTag(a: string, b: string, tag: string, j: nat)
    requires j < |a| < j + |tag|
    ensures FoldAt(a + b, j, tag) ==> FoldAt(a, j, tag[..|a| - j])
  {
    assert forall k :: j <= k < |a| ==> (a + b)[k] == a[k];
  }

  /** The first closing tag of a + b is that of b read after the partial tail of a. */
  lemma {:induction false} IndexAfterTail(a: string, b: string, tag: string)
    requires tag != "" && IndexFrom(a, tag, 0) < 0
    ensures var rest := PartialTail(a, tag) + b;
      var i, k := IndexFrom(a + b, tag, 0), IndexFrom(rest, tag, 0);
      if k < 0 then i < 0 else i >= 0 && (a + b)[i + |tag|..] == rest[k + |tag|..]
  {
    var n := |a| - |PartialTail(a, tag)|;
    forall j | 0 <= j < n
      ensures !FoldAt(a + b, j, tag)
    {
      NoTagBeforeTail(a, b, tag, j);
    }
    assert (a + b)[n..] == PartialTail(a, tag) + b;
    IndexShift(a + b, n, tag);
    DropTwice(a + b, n, IndexFrom((a + b)[n..], tag, 0) + |tag|);
  }

  lemma {:induction false} DropTwice(s: string, n: nat, k: int)
    requires n <= |s|
    ensures 0 <= k <= |s| - n ==> s[n + k..] == s[n..][k..]
  {
  }

  /** What is still to come once f has read everything before s. */
  function ToCome(t: Tags, f: Filter, s: string): string {
    if f.replying then s else Rest(t, f.inside, f.trim, f.pending + s)
  }

  lemma {:induction false} TailDropped(s: string, n: nat, tag: string, m: nat)
    requires n <= |s| && m <= |s| - n && m <= |tag|
    ensures TailMatches(s[n..], tag, m) <==> TailMatches(s, tag, m)
  {
    var i := |s| - m;
    assert s[n..][i - n..] == s[i..];
    FoldAtSlice(s, i, tag[..m]);
    FoldAtSlice(s[n..], i - n, tag[..m]);
  }

  /** A partial tail that reached back before n would have been the partial tail of the part it reached into. */
  lemma {:induction false} TailStartsLater(a: string, b: string, tag: string, m: nat)
    requires tag != "" && m <= TailBound(a + b, tag) && TailMatches(a + b, tag, m)
    ensures m <= |PartialTail(a, tag)| + |b|
  {
    if m > |b| {
      var j := |a + b| - m;
      var l := |a| - j;
      assert forall k :: j <= k < |a| ==> (a + b)[k] == a[k];
      assert tag[..m][..l] == tag[..l];
      assert TailMatches(a, tag, l);
      TailIsLongest(a, tag, TailBound(a, tag));
    }
  }

  lemma {:induction false} TailIsMaximal(s: string, tag: string, m: nat)
    requires tag != "" && m <= TailBound(s, tag) && TailMatches(s, tag, m)
    ensures m <= |PartialTail(s, tag)|
  {
    TailIsLongest(s, tag, TailBound(s, tag));
  }

  lemma {:induction false} TailMatchesItself(s: string, tag: string)
    requires tag != ""
    ensures |PartialTail(s, tag)| <= TailBound(s, tag) && TailMatches(s, tag, |PartialTail(s, tag)|)
  {
    TailIsLongest(s, tag, TailBound(s, tag));
  }

  lemma {:induction false} SameTailLength(a: string, b: string, tag: string)
    requires tag != ""
    ensures |PartialTail(PartialTail(a, tag) + b, tag)| == |PartialTail(a + b, tag)|
  {
    var n := |a| - |PartialTail(a, tag)|;
    var s, short := a + b, PartialTail(a, tag) + b;
    assert s[n..] == short;
    var k, l := |PartialTail(s, tag)|, |PartialTail(short, tag)|;
    TailMatchesItself(s, tag);
    TailMatchesItself(short, tag);
    TailStartsLater(a, b, tag, k);
    TailDropped(s, n, tag, k);
    TailDropped(s, n, tag, l);
    TailIsMaximal(short, tag, k);
    TailIsMaximal(s, tag, l);
  }

  lemma {:induction false} SameEnd(s: string, n: nat, k: nat)
    requires n <= |s| && k <= |s| - n
    ensures s[|s| - k..] == s[n..][|s| - n - k..]
  {
  }

  /** The partial tail of a text is that of its end, from the partial tail of its beginning on. */
  lemma {:induction false} PartialTailSplit(a: string, b: string, tag: string)
    requires tag != ""
    ensures PartialTail(PartialTail(a, tag) + b, tag) == PartialTail(a + b, tag)
  {
    var n := |a| - |PartialTail(a, tag)|;
    assert (a + b)[n..] == PartialTail(a, tag) + b;
    SameTailLength(a, b, tag);
    SameEnd(a + b, n, |PartialTail(a + b, tag)|);
  }

  /** One turn of the loop inside a block that is closed. */
  lemma {:induction false} ScanClosed(t: Tags, trim: bool, s: string, i: nat, left: string)
    requires i == IndexFrom(s, t.close, 0) && left == s[i + |t.close|..]
    ensures ScanFrom(t, true, trim, s) == ScanFrom(t, false, true, left)
  {
  }

  /** One turn of the loop inside a block that is not. */
  lemma {:induction false} ScanUnclosed(t: Tags, trim: bool, s: string)
    requires IndexFrom(s, t.close, 0) < 0
    ensures ScanFrom(t, true, trim, s) == (Filter(false, true, PartialTail(s, t.close), trim), "")
  {
  }

  /** The filter's next state and output, from the point where a block is open. */
  lemma {:induction false} InsideThenPush(t: Tags, trim: bool, a: string, b: string)
    requires IndexFrom(a, t.close, 0) < 0
    ensures ScanFrom(t, true, trim, PartialTail(a, t.close) + b) == ScanFrom(t, true, trim, a + b)
  {
    var long, short := a + b, PartialTail(a, t.close) + b;
    IndexAfterTail(a, b, t.close);
    var i, k := IndexFrom(long, t.close, 0), IndexFrom(short, t.close, 0);
    if k < 0 {
      PartialTailSplit(a, b, t.close);
      ScanUnclosed(t, trim, long);
      ScanUnclosed(t, trim, short);
    } else {
      var left := long[i + |t.close|..];
      ScanClosed(t, trim, long, i, left);
      ScanClosed(t, trim, short, k, left);
    }
  }

  /** Reading a and then pushing b leaves the filter where reading a + b does, with the same output. */
  ghost predicate SplitsAt(t: Tags, inside: bool, trim: bool, a: string, b: string) {
    var (g, out) := ScanFrom(t, inside, trim, a);
    var (h, more) := Push(t, g, b);
    ScanFrom(t, inside, trim, a + b) == (h, out + more)
  }

  lemma {:induction false} MayStillOpen(t: Tags, rest: string, b: string)
    ensures MayBecomeOpen(t, rest + b) ==> MayBecomeOpen(t, rest)
  {
    if MayBecomeOpen(t, rest + b) {
      assert t.open[..|rest + b|][..|rest|] == t.open[..|rest|];
      assert forall k :: 0 <= k < |rest| ==> (rest + b)[k] == rest[k];
    }
  }

  lemma {:induction false} ReplyThenPush(t: Tags, trim: bool, a: string, b: string)
    requires !FoldAt(TrimLeft(a), 0, t.open) && !MayBecomeOpen(t, TrimLeft(a))
    ensures SplitsAt(t, false, trim, a, b)
  {
    var rest := TrimLeft(a);
    assert FoldAt("", 0, t.open[..0]);
    TrimLeftAppend(a, b);
    MayStillOpen(t, rest, b);
    if |t.open| <= |rest| {
      FoldAtAppend(rest, b, 0, t.open);
    } else {
      CutTag(rest, b, t.open, 0);
    }
  }

  /** A filter that gave nothing for a and goes on as if it had not stopped. */
  lemma {:induction false} GoesOn(t: Tags, inside: bool, trim: bool, a: string, b: string, g: Filter)
    requires ScanFrom(t, inside, trim, a) == (g, "") && Push(t, g, b) == ScanFrom(t, inside, trim, a + b)
    ensures SplitsAt(t, inside, trim, a, b)
  {
    var more := Push(t, g, b).1;
    assert "" + more == more;
  }

  /** One turn of the loop that reads on from left. */
  lemma {:induction false} ReadsOn(t: Tags, inside: bool, trim: bool, a: string, b: string, inside': bool, trim': bool, left: string)
    requires ScanFrom(t, inside, trim, a) == ScanFrom(t, inside', trim', left)
    requires ScanFrom(t, inside, trim, a + b) == ScanFrom(t, inside', trim', left + b)
    requires SplitsAt(t, inside', trim', left, b)
    ensures SplitsAt(t, inside, trim, a, b)
  {
  }

  lemma {:induction false} UnclosedThenPush(t: Tags, trim: bool, a: string, b: string)
    requires IndexFrom(a, t.close, 0) < 0
    ensures SplitsAt(t, true, trim, a, b)
  {
    ScanUnclosed(t, trim, a);
    InsideThenPush(t, trim, a, b);
    GoesOn(t, true, trim, a, b, Filter(false, true, PartialTail(a, t.close), trim));
  }

  lemma {:induction false} ClosedReadsOn(t: Tags, trim: bool, a: string, b: string, i: nat, left: string)
    requires i == IndexFrom(a, t.close, 0) && left == a[i + |t.close|..]
    ensures ScanFrom(t, true, trim, a) == ScanFrom(t, false, true, left)
    ensures ScanFrom(t, true, trim, a + b) == ScanFrom(t, false, true, left + b)
  {
    IndexAppend(a, b, t.close);
    ScanClosed(t, trim, a, i, left);
    assert (a + b)[i + |t.close|..] == left + b;
    ScanClosed(t, trim, a + b, i, left + b);
  }

  lemma {:induction false} ScanThenPush(t: Tags, inside: bool, trim: bool, a: string, b: string)
    ensures SplitsAt(t, inside, trim, a, b)
    decreases |a|
  {
    if !inside {
      OutsideThenPush(t, trim, a, b);
    } else if IndexFrom(a, t.close, 0) < 0 {
      UnclosedThenPush(t, trim, a, b);
    } else {
      var i := IndexFrom(a, t.close, 0);
      var left := a[i + |t.close|..];
      ClosedReadsOn(t, trim, a, b, i, left);
      ScanThenPush(t, false, true, left, b);
      ReadsOn(t, true, trim, a, b, false, true, left);
    }
  }

  lemma {:induction false} OutsideThenPush(t: Tags, trim: bool, a: string, b: string)
    ensures SplitsAt(t, false, trim, a, b)
    decreases |a|, 0
  {
    var rest := TrimLeft(a);
    if FoldAt(rest, 0, t.open) {
      TrimLeftAppend(a, b);
      FoldAtAppend(rest, b, 0, t.open);
      var left := rest[|t.open|..];
      assert (rest + b)[|t.open|..] == left + b;
      ScanThenPush(t, true, trim, left, b);
      ReadsOn(t, false, trim, a, b, true, trim, left);
    } else if MayBecomeOpen(t, rest) {
      GoesOn(t, false, trim, a, b, Filter(false, false, a, trim));
    } else {
      ReplyThenPush(t, trim, a, b);
    }
  }

  lemma {:induction false} PushTwice(t: Tags, f: Filter, a: string, b: string)
    ensures var (g, out) := Push(t, f, a); Push(t, f, a + b) == (Push(t, g, b).0, out + Push(t, g, b).1)
  {
    if !f.replying {
      assert f.pending + (a + b) == (f.pending + a) + b;
      ScanThenPush(t, f.inside, f.trim, f.pending + a, b);
    }
  }

  lemma {:induction false} ToComeIsFinish(t: Tags, f: Filter, s: string)
    requires f.replying ==> Flush(f) == ""
    ensures ToCome(t, f, s) == Finish(t, f, s)
  {
    if f.replying {
      assert s + "" == s;
    } else {
      FinishGivesRest(t, f, s);
    }
  }

  lemma {:induction false} ReplyingHoldsNothing(t: Tags, f: Filter, s: string)
    requires !f.replying
    ensures Push(t, f, s).0.replying ==> Flush(Push(t, f, s).0) == ""
  {
    ScanSettles(t, f.inside, f.trim, f.pending + s);
  }

  /** From any state of the filter, a cut in the text is not seen: neither in the output, nor in the state reached, nor in what is still to come. */
  lemma {:induction false} PushSplit(t: Tags, f: Filter, a: string, b: string)
    ensures var (g, out) := Push(t, f, a);
      && Push(t, f, a + b) == (Push(t, g, b).0, out + Push(t, g, b).1)
      && ToCome(t, f, a + b) == out + ToCome(t, g, b)
  {
    PushTwice(t, f, a, b);
    if !f.replying {
      var (g, out) := Push(t, f, a);
      ReplyingHoldsNothing(t, f, a);
      ToComeIsFinish(t, f, a + b);
      ToComeIsFinish(t, g, b);
      Regroup(out, Push(t, g, b).1, Flush(Push(t, g, b).0));
    }
  }

  /** What every filter the gateway can hold satisfies between two pushes. */
  ghost predicate Settled(t: Tags, f: Filter) {
    if f.replying then f.pending == "" && !f.inside
    else if f.inside then IndexFrom(f.pending, t.close, 0) < 0
    else !FoldAt(TrimLeft(f.pending), 0, t.open) && MayBecomeOpen(t, TrimLeft(f.pending))
  }

  lemma {:induction false} ScanSettles(t: Tags, inside: bool, trim: bool, s: string)
    ensures Settled(t, ScanFrom(t, inside, trim, s).0)
    decreases |s|
  {
    if inside {
      var i := IndexFrom(s, t.close, 0);
      if i < 0 {
        var tail := PartialTail(s, t.close);
        assert |tail| < |t.close|;
      } else {
        ScanSettles(t, false, true, s[i + |t.close|..]);
      }
    } else {
      var rest := TrimLeft(s);
      if FoldAt(rest, 0, t.open) {
        ScanSettles(t, true, trim, rest[|t.open|..]);
      }
    }
  }

  /** Pushing nothing at the end of a reply releases what flush releases. */
  lemma {:induction false} FinishNothing(t: Tags, f: Filter)
    requires Settled(t, f)
    ensures ToCome(t, f, "") == Flush(f)
  {
    assert f.pending + "" == f.pending;
  }

  /** push keeps the filter settled, so any number of chunks can follow. */
  lemma {:induction false} PushSettles(t: Tags, f: Filter, s: string)
    requires Settled(t, f)
    ensures Settled(t, Push(t, f, s).0)
  {
    if !f.replying {
      ScanSettles(t, f.inside, f.trim, f.pending + s);
    }
  }

  lemma {:induction false} PushAllSplit(t: Tags, f: Filter, chunks: seq<string>)
    requires Settled(t, f)
    ensures var (g, out) := PushAll(t, f, chunks);
      Settled(t, g) && out + Flush(g) == ToCome(t, f, Concat(chunks))
    decreases |chunks|
  {
    if chunks == [] {
      FinishNothing(t, f);
    } else {
      var (g, out) := Push(t, f, chunks[0]);
      PushSettles(t, f, chunks[0]);
      PushAllSplit(t, g, chunks[1..]);
      PushSplit(t, f, chunks[0], Concat(chunks[1..]));
      var (h, rest) := PushAll(t, g, chunks[1..]);
      assert (out + rest) + Flush(h) == out + (rest + Flush(h));
    }
  }

  lemma {:induction false} FreshSettled(t: Tags)
    ensures Settled(t, FRESH)
  {
    assert TrimLeft("") == "";
    assert FoldAt("", 0, t.open[..0]);
  }

  /**
   However a reply is cut into chunks, what the stream filter lets through,
   with what it gives at the end, is what the whole-reply filter gives.
   */
  lemma {:induction false} ChunkingIsInvisible(t: Tags, chunks: seq<string>)
    ensures var (g, out) := PushAll(t, FRESH, chunks); out + Flush(g) == Strip(t, Concat(chunks))
  {
    FreshSettled(t);
    PushAllSplit(t, FRESH, chunks);
    StripGivesRest(t, Concat(chunks));
    assert "" + Concat(chunks) == Concat(chunks);
  }

  // ---------- what stripping gives ----------

  ghost predicate SuffixOf(r: string, s: string) {
    |r| <= |s| && r == s[|s| - |r|..]
  }

  lemma {:induction false} SuffixTrans(a: string, b: string, c: string)
    requires SuffixOf(a, b) && SuffixOf(b, c)
    ensures SuffixOf(a, c)
  {
    assert b[|b| - |a|..] == c[|c| - |a|..];
  }

  lemma {:induction false} RestIsSuffix(t: Tags, inside: bool, trim: bool, s: string)
    ensures SuffixOf(Rest(t, inside, trim, s), s)
    decreases |s|
  {
    TrimLeftIsSuffix(s);
    var rest := TrimLeft(s);
    if inside {
      var i := IndexFrom(s, t.close, 0);
      if i >= 0 {
        var left := s[i + |t.close|..];
        RestIsSuffix(t, false, true, left);
        SuffixTrans(Rest(t, false, true, left), left, s);
      }
    } else if FoldAt(rest, 0, t.open) {
      var left := rest[|t.open|..];
      RestIsSuffix(t, true, trim, left);
      SuffixTrans(left, rest, s);
      SuffixTrans(Rest(t, true, trim, left), left, s);
    }
  }

  /** Stripping only ever cuts from the front. */
  lemma {:induction false} StripIsSuffix(t: Tags, s: string)
    ensures SuffixOf(Strip(t, s), s)
  {
    StripGivesRest(t, s);
    RestIsSuffix(t, false, false, s);
  }

  /** What is left never opens a block. */
  lemma {:induction false} RestOpensNoBlock(t: Tags, inside: bool, trim: bool, s: string)
    ensures !FoldAt(TrimLeft(Rest(t, inside, trim, s)), 0, t.open)
    decreases |s|
  {
    TrimLeftIsSuffix(s);
    if inside {
      var i := IndexFrom(s, t.close, 0);
      if i >= 0 {
        RestOpensNoBlock(t, false, true, s[i + |t.close|..]);
      }
    } else if FoldAt(TrimLeft(s), 0, t.open) {
      RestOpensNoBlock(t, true, trim, TrimLeft(s)[|t.open|..]);
    }
  }

  /** Stripping a stripped reply changes nothing. */
  lemma {:induction false} StripIdempotent(t: Tags, s: string)
    ensures Strip(t, Strip(t, s)) == Strip(t, s)
  {
    StripGivesRest(t, s);
    RestOpensNoBlock(t, false, false, s);
    StripGivesRest(t, Strip(t, s));
  }

  // ---------- an independent reading: a reply is blocks, then a tail ----------

  /** One thinking block as the model wrote it. */
  datatype Block = Block(space: string, open: string, body: string, close: string) {
    function Text(): string {
      space + open + body + close
    }

    ghost predicate Valid(t: Tags) {
      && TrimLeft(space) == ""
      && |open| == |t.open| && FoldAt(open, 0, t.open)
      && |close| == |t.close| && IsFirst(body + close, t.close, 0, |body|)
    }
  }

  function Texts(blocks: seq<Block>): string {
    if blocks == [] then "" else blocks[0].Text() + Texts(blocks[1..])
  }

  /** The tail does not begin with a complete block. */
  ghost predicate NoBlockLeft(t: Tags, tail: string) {
    var rest := TrimLeft(tail);
    FoldAt(rest, 0, t.open) ==> IndexFrom(rest[|t.open|..], t.close, 0) < 0
  }

  /** What is left of a reply that has had its blocks cut. */
  function Remainder(t: Tags, hadBlocks: bool, tail: string): string {
    if FoldAt(TrimLeft(tail), 0, t.open) then "" else Trimmed(hadBlocks, tail)
  }

  lemma {:induction false} TrimLeftAll(space: string, rest: string)
    requires TrimLeft(space) == ""
    ensures TrimLeft(space + rest) == TrimLeft(rest)
  {
    if space != "" {
      assert (space + rest)[1..] == space[1..] + rest;
      TrimLeftAll(space[1..], rest);
    } else {
      assert space + rest == rest;
    }
  }

  lemma {:induction false} OneBlock(t: Tags, trim: bool, b: Block, rest: string)
    requires b.Valid(t)
    ensures Rest(t, false, trim, b.Text() + rest) == Rest(t, false, true, rest)
  {
    var inner := b.body + b.close + rest;
    var afterSpace := b.open + inner;
    assert b.Text() + rest == b.space + afterSpace;
    TrimLeftAll(b.space, afterSpace);
    assert TrimLeft(afterSpace) == afterSpace by { assert Lower(b.open[0 + 0]) == t.open[0]; }
    FoldAtAppend(b.open, inner, 0, t.open);
    assert afterSpace[|t.open|..] == inner;
    BlockCloses(t, trim, b, rest);
  }

  lemma {:induction false} BlockCloses(t: Tags, trim: bool, b: Block, rest: string)
    requires |b.close| == |t.close| && IsFirst(b.body + b.close, t.close, 0, |b.body|)
    ensures Rest(t, true, trim, b.body + b.close + rest) == Rest(t, false, true, rest)
  {
    FirstIsUnique(b.body + b.close, t.close, |b.body|);
    IndexAppend(b.body + b.close, rest, t.close);
    assert (b.body + b.close + rest)[|b.body| + |t.close|..] == rest;
  }

  lemma {:induction false} BlocksThenTail(t: Tags, trim: bool, blocks: seq<Block>, tail: string)
    requires (forall b <- blocks :: b.Valid(t)) && NoBlockLeft(t, tail)
    ensures Rest(t, false, trim, Texts(blocks) + tail) == Remainder(t, trim || blocks != [], tail)
    decreases |blocks|
  {
    if blocks == [] {
      assert Texts(blocks) + tail == tail;
    } else {
      var rest := Texts(blocks[1..]) + tail;
      assert Texts(blocks) + tail == blocks[0].Text() + rest;
      OneBlock(t, trim, blocks[0], rest);
      BlocksThenTail(t, true, blocks[1..], tail);
    }
  }

  /**
   Reference meaning of stripping: read a reply as complete blocks and a tail
   that opens none; the blocks go, an unclosed block goes to the end, and the
   white space after a block goes with it.
   */
  lemma {:induction false} StripMeaning(t: Tags, blocks: seq<Block>, tail: string)
    requires (forall b <- blocks :: b.Valid(t)) && NoBlockLeft(t, tail)
    ensures Strip(t, Texts(blocks) + tail) == Remainder(t, blocks != [], tail)
  {
    StripGivesRest(t, Texts(blocks) + tail);
    BlocksThenTail(t, false, blocks, tail);
  }

  /** With the gateway's own tags: a block goes, and with it the white space after it, whatever the block holds. */
  lemma {:induction false} ThinkBlockGoes(body: string, reply: string)
    requires IsFirst(body + "</think>", "</think>", 0, |body|) && NoBlockLeft(THINK, reply)
    ensures Strip(THINK, "<think>" + body + "</think>" + reply) == Remainder(THINK, true, reply)
  {
    var b := Block("", "<think>", body, "</think>");
    assert FoldAt(b.open, 0, THINK.open) && b.Valid(THINK);
    assert b.Text() == "<think>" + body + "</think>";
    assert Texts([b]) == b.Text() + Texts([b][1..]) == b.Text();
    StripMeaning(THINK, [b], reply);
  }

  /** Every reply can be read that way, so the reference covers every input. */
  lemma {:induction false} EveryReplyParses(t: Tags, s: string) returns (blocks: seq<Block>, tail: string)
    ensures s == Texts(blocks) + tail
    ensures (forall b <- blocks :: b.Valid(t)) && NoBlockLeft(t, tail)
    decreases |s|
  {
    if NoBlockLeft(t, s) {
      blocks, tail := [], s;
    } else {
      var b, left := FirstBlock(t, s);
      var more, end := EveryReplyParses(t, left);
      blocks, tail := [b] + more, end;
      assert b.Text() + (Texts(more) + end) == Texts(blocks) + tail;
    }
  }

  lemma {:induction false} FirstBlock(t: Tags, s: string) returns (b: Block, left: string)
    requires !NoBlockLeft(t, s)
    ensures b.Valid(t) && s == b.Text() + left && |left| < |s|
  {
    var rest := TrimLeft(s);
    var inner := rest[|t.open|..];
    var i := IndexFrom(inner, t.close, 0);
    TrimLeftIsSuffix(s);
    TrimmedSpace(s);
    b, left := Cut(s, |s| - |rest|, |t.open|, i, |t.close|);
    assert rest == b.open + inner && inner == (b.body + b.close) + left;
    FoldAtAppend(b.open, inner, 0, t.open);
    FirstInBlock(t.close, b.body + b.close, left, i);
  }

  lemma {:induction false} SplitAt(s: string, n: nat)
    requires n <= |s|
    ensures s == s[..n] + s[n..]
  {
  }

  /** Cutting s into a block of given part lengths, and the text after it. */
  lemma {:induction false} Cut(s: string, n: nat, o: nat, i: nat, c: nat) returns (b: Block, left: string)
    requires n + o + i + c <= |s|
    ensures b.space == s[..n] && b.open == s[n..][..o]
    ensures b.body == s[n..][o..][..i] && |b.close| == c
    ensures s[n..] == b.open + s[n..][o..] && s[n..][o..] == b.body + b.close + left
    ensures s == b.Text() + left
  {
    var rest := s[n..];
    var inner := rest[o..];
    var after := inner[i..];
    b := Block(s[..n], rest[..o], inner[..i], after[..c]);
    left := after[c..];
    SplitAt(s, n);
    SplitAt(rest, o);
    SplitAt(inner, i);
    SplitAt(after, c);
    Regroup(b.body, b.close, left);
    Regroup(b.open, b.body + b.close, left);
    Regroup(b.open, b.body, b.close);
    Regroup(b.space, b.open + b.body + b.close, left);
    Regroup(b.space, b.open + b.body, b.close);
    Regroup(b.space, b.open, b.body);
  }

  lemma {:induction false} TrimmedSpace(s: string)
    ensures TrimLeft(s[..|s| - |TrimLeft(s)|]) == ""
  {
    if s != "" && Blank(s[0]) {
      TrimmedSpace(s[1..]);
      var n := |s| - |TrimLeft(s)|;
      assert s[..n][1..] == s[1..][..n - 1];
    }
  }

  lemma {:induction false} FirstInBlock(tag: string, s: string, left: string, i: nat)
    requires IndexFrom(s + left, tag, 0) == i && i + |tag| == |s|
    ensures IsFirst(s, tag, 0, i)
  {
    IndexIsFirst(s + left, tag, 0);
    FoldAtAppend(s, left, i, tag);
    forall j | 0 <= j < i
      ensures !FoldAt(s, j, tag)
    {
      FoldAtAppend(s, left, j, tag);
    }
  }
}
