/**
 Model of internal/dlp/dlp.go: choosing among overlapping findings and
 rewriting the text. Scanning itself (patterns, entropy) is not modelled: a
 finding list and the ranking of labels are inputs, and so is the test for
 a blank gap.
 */
module Dlp {
  import opened Common
  import opened Sorting

  datatype Finding = Finding(tag: string, start: int, end: int)

  /** What the choice between findings depends on: the rank of the label (lower is more specific) and the span. */
  datatype Span = Span(rank: int, start: int, end: int)

  function KeyOf(priority: string -> int): Finding -> Span {
    (f: Finding) => Span(priority(f.tag), f.start, f.end)
  }

  predicate Overlap(a: Span, b: Span) {
    a.start < b.end && b.start < a.end
  }

  predicate Outranks(a: Span, b: Span) {
    if a.rank != b.rank then a.rank < b.rank
    else if a.end - a.start != b.end - b.start then a.end - a.start > b.end - b.start
    else a.start < b.start
  }

  predicate Before(a: Span, b: Span) {
    a.start < b.start
  }

  // ---------- the greedy choice ----------

  predicate Clashes<T>(x: T, s: seq<T>, key: T -> Span) {
    exists i :: 0 <= i < |s| && Overlap(key(x), key(s[i]))
  }

  function Greedy<T>(s: seq<T>, key: T -> Span): seq<T>
    decreases |s|
  {
    if s == [] then []
    else
      var n := |s| - 1;
      var kept := Greedy(s[..n], key);
      if Clashes(s[n], kept, key) then kept else kept + [s[n]]
  }

  function Chosen<T>(s: seq<T>, key: T -> Span): seq<T> {
    Greedy(Sort(s, On(key, Outranks)), key)
  }

  function MergeBy<T>(s: seq<T>, key: T -> Span): seq<T> {
    Sort(Chosen(s, key), On(key, Before))
  }

  lemma {:induction false} FewStay<T>(s: seq<T>, key: T -> Span)
    requires |s| <= 1
    ensures MergeBy(s, key) == s
  {
    if |s| == 1 {
      assert Sort(s[1..], On(key, Outranks)) == [];
      assert Sort(s, On(key, Outranks)) == s;
      assert s[..0] == [];
      assert Greedy(s, key) == s;
      assert Sort(s[1..], On(key, Before)) == [];
    }
  }

  method OverlapsAny(start: int, end: int, fs: seq<Finding>) returns (r: bool)
    ensures r <==> exists i :: 0 <= i < |fs| && start < fs[i].end && fs[i].start < end
  {
    for i := 0 to |fs|
      invariant forall j :: 0 <= j < i ==> !(start < fs[j].end && fs[j].start < end)
    {
      if start < fs[i].end && fs[i].start < end {
        return true;
      }
    }
    return false;
  }

  method Merge(fs: seq<Finding>, priority: string -> int) returns (kept: seq<Finding>)
    ensures multiset(kept) <= multiset(fs)
    ensures forall f <- fs :: f in kept || exists i :: 0 <= i < |kept| && WinsOver(kept[i], f, priority)
    ensures kept == MergeBy(fs, KeyOf(priority))
  {
    var key := KeyOf(priority);
    MergeIsPart(fs, key);
    forall f | f in fs
      ensures f in MergeBy(fs, key) || exists i :: 0 <= i < |MergeBy(fs, key)| && WinsOver(MergeBy(fs, key)[i], f, priority)
    {
      MergeAnswersAll(fs, priority, f);
    }
    if |fs| <= 1 {
      FewStay(fs, key);
      return fs;
    }
    var ranked := Sort(fs, On(key, Outranks));
    kept := [];
    for i := 0 to |ranked|
      invariant kept == Greedy(ranked[..i], key)
    {
      assert ranked[..i + 1][..i] == ranked[..i];
      var clash := OverlapsAny(ranked[i].start, ranked[i].end, kept);
      assert clash <==> Clashes(ranked[i], kept, key);
      if clash {
        continue;
      }
      kept := kept + [ranked[i]];
    }
    assert ranked[..|ranked|] == ranked;
    kept := Sort(kept, On(key, Before));
  }

  // ---------- what is kept, what is dropped ----------

  ghost predicate Apart<T>(s: seq<T>, key: T -> Span) {
    forall i, j :: 0 <= i < j < |s| ==> !Overlap(key(s[i]), key(s[j]))
  }

  lemma {:induction false} GreedyIsApart<T>(s: seq<T>, key: T -> Span)
    ensures Apart(Greedy(s, key), key)
    decreases |s|
  {
    if s != [] {
      GreedyIsApart(s[..|s| - 1], key);
    }
  }

  lemma {:induction false} GreedyIsPart<T>(s: seq<T>, key: T -> Span)
    ensures multiset(Greedy(s, key)) <= multiset(s)
    decreases |s|
  {
    if s != [] {
      GreedyIsPart(s[..|s| - 1], key);
      assert s == s[..|s| - 1] + [s[|s| - 1]];
    }
  }

  /** A kept element that overlaps x and that x does not outrank. */
  ghost predicate Beats<T>(g: T, x: T, key: T -> Span) {
    Overlap(key(x), key(g)) && !Outranks(key(x), key(g))
  }

  /** x was kept, or lost to an element that was. */
  ghost predicate Answered<T>(x: T, kept: seq<T>, key: T -> Span) {
    x in kept || exists i :: 0 <= i < |kept| && Beats(kept[i], x, key)
  }

  lemma {:induction false} AnsweredMore<T>(x: T, kept: seq<T>, y: T, key: T -> Span)
    requires Answered(x, kept, key)
    ensures Answered(x, kept + [y], key)
  {
    if x !in kept {
      var i :| 0 <= i < |kept| && Beats(kept[i], x, key);
      assert (kept + [y])[i] == kept[i];
    }
  }

  lemma {:induction false} GreedyMembers<T>(s: seq<T>, key: T -> Span, x: T)
    requires x in Greedy(s, key)
    ensures x in s
  {
    GreedyIsPart(s, key);
    assert x in multiset(Greedy(s, key));
    assert x in multiset(s);
  }

  lemma {:induction false} GreedyAnswers<T>(s: seq<T>, key: T -> Span, x: T)
    requires SortedBy(s, On(key, Outranks))
    requires x in s
    ensures Answered(x, Greedy(s, key), key)
    decreases |s|
  {
    var n := |s| - 1;
    var kept := Greedy(s[..n], key);
    if x in s[..n] {
      GreedyAnswers(s[..n], key, x);
      AnsweredMore(x, kept, s[n], key);
    } else if Clashes(x, kept, key) {
      var i :| 0 <= i < |kept| && Overlap(key(x), key(kept[i]));
      GreedyMembers(s[..n], key, kept[i]);
      var j :| 0 <= j < n && s[j] == kept[i];
      assert !On(key, Outranks)(s[n], s[j]);
      assert Beats(kept[i], x, key);
    }
  }

  lemma {:induction false} RankingIsWeak<T(!new)>(key: T -> Span)
    ensures StrictWeak(On(key, Outranks)) && StrictWeak(On(key, Before))
  {
    assert StrictWeak(Outranks) && StrictWeak(Before) by {
      assert forall a: Span, b: Span, c: Span :: Outranks(a, b) && Outranks(b, c) ==> Outranks(a, c);
      assert forall a: Span, b: Span, c: Span :: Outranks(a, c) ==> Outranks(a, b) || Outranks(b, c);
    }
    OnIsWeak(key, Outranks);
    OnIsWeak(key, Before);
  }

  // ---------- sorting keeps findings apart ----------

  lemma {:induction false} InsertApart<T>(x: T, s: seq<T>, key: T -> Span, less: (T, T) -> bool)
    requires Apart([x] + s, key)
    ensures Apart(Insert(x, s, less), key)
    decreases |s|
  {
    if s != [] && less(s[0], x) {
      var rest := s[1..];
      assert Apart([x] + rest, key) by {
        forall i, j | 0 <= i < j < |[x] + rest| ensures !Overlap(key(([x] + rest)[i]), key(([x] + rest)[j])) {
          assert ([x] + rest)[i] == ([x] + s)[if i == 0 then 0 else i + 1];
          assert ([x] + rest)[j] == ([x] + s)[j + 1];
        }
      }
      InsertApart(x, rest, key, less);
      var r := Insert(x, rest, less);
      InsertPermutes(x, rest, less);
      forall j | 0 <= j < |r| ensures !Overlap(key(s[0]), key(r[j])) {
        assert r[j] in multiset(r);
        if r[j] == x {
          assert ([x] + s)[0] == x && ([x] + s)[1] == s[0];
        } else {
          var k :| 0 <= k < |rest| && rest[k] == r[j];
          assert ([x] + s)[1] == s[0] && ([x] + s)[k + 2] == r[j];
        }
      }
    }
  }

  lemma {:induction false} SortApart<T>(s: seq<T>, key: T -> Span, less: (T, T) -> bool)
    requires Apart(s, key)
    ensures Apart(Sort(s, less), key)
    decreases |s|
  {
    if s != [] {
      SortApart(s[1..], key, less);
      var r := Sort(s[1..], less);
      SortPermutes(s[1..], less);
      forall j | 0 <= j < |r| ensures !Overlap(key(s[0]), key(r[j])) {
        SameMembers(r, s[1..], r[j]);
        var k :| 0 <= k < |s[1..]| && s[1..][k] == r[j];
        assert s[k + 1] == r[j];
      }
      InsertApart(s[0], r, key, less);
    }
  }

  // ---------- Merge, on findings ----------

  ghost predicate NonEmpty(fs: seq<Finding>) {
    forall i :: 0 <= i < |fs| ==> fs[i].start < fs[i].end
  }

  /** Each finding ends before the next begins. */
  ghost predicate InLine(fs: seq<Finding>) {
    forall i, j :: 0 <= i < j < |fs| ==> fs[i].end <= fs[j].start
  }

  lemma {:induction false} PartIsNonEmpty(part: seq<Finding>, fs: seq<Finding>)
    requires NonEmpty(fs) && multiset(part) <= multiset(fs)
    ensures NonEmpty(part)
  {
    forall i | 0 <= i < |part| ensures part[i].start < part[i].end {
      assert part[i] in multiset(part);
      assert part[i] in fs;
    }
  }

  lemma {:induction false} MergeIsPart(fs: seq<Finding>, key: Finding -> Span)
    ensures multiset(MergeBy(fs, key)) == multiset(Chosen(fs, key)) <= multiset(fs)
  {
    var ranked := Sort(fs, On(key, Outranks));
    SortPermutes(fs, On(key, Outranks));
    GreedyIsPart(ranked, key);
    SortPermutes(Chosen(fs, key), On(key, Before));
  }

  lemma {:induction false} MergeIsApart(fs: seq<Finding>, key: Finding -> Span)
    ensures Apart(MergeBy(fs, key), key)
  {
    GreedyIsApart(Sort(fs, On(key, Outranks)), key);
    SortApart(Chosen(fs, key), key, On(key, Before));
  }

  /** Merge returns findings in line: sorted by start, none overlapping. */
  lemma {:induction false} MergeIsInLine(fs: seq<Finding>, priority: string -> int)
    requires NonEmpty(fs)
    ensures NonEmpty(MergeBy(fs, KeyOf(priority))) && InLine(MergeBy(fs, KeyOf(priority)))
  {
    var key := KeyOf(priority);
    var kept := MergeBy(fs, key);
    MergeIsPart(fs, key);
    PartIsNonEmpty(kept, fs);
    MergeIsApart(fs, key);
    RankingIsWeak(key);
    SortSorts(Chosen(fs, key), On(key, Before));
    forall i, j | 0 <= i < j < |kept| ensures kept[i].end <= kept[j].start {
      assert !On(key, Before)(kept[j], kept[i]);
      assert !Overlap(key(kept[i]), key(kept[j]));
    }
  }

  /** g overlaps f and has the label of lower priority number, or as low a one and is longer, or as long and starts no later. */
  ghost predicate WinsOver(g: Finding, f: Finding, priority: string -> int) {
    && f.start < g.end && g.start < f.end
    && (|| priority(g.tag) < priority(f.tag)
        || (priority(g.tag) == priority(f.tag) && g.end - g.start > f.end - f.start)
        || (priority(g.tag) == priority(f.tag) && g.end - g.start == f.end - f.start && g.start <= f.start))
  }

  /** Every finding is kept or overlaps a kept one that is to be preferred. */
  lemma {:induction false} MergeAnswersAll(fs: seq<Finding>, priority: string -> int, f: Finding)
    requires f in fs
    ensures var kept := MergeBy(fs, KeyOf(priority));
      f in kept || exists i :: 0 <= i < |kept| && WinsOver(kept[i], f, priority)
  {
    MergeAnswers(fs, priority, f);
    var key, kept := KeyOf(priority), MergeBy(fs, KeyOf(priority));
    if f !in kept {
      var i :| 0 <= i < |kept| && Beats(kept[i], f, key);
      assert WinsOver(kept[i], f, priority);
    }
  }

  lemma {:induction false} MergeAnswers(fs: seq<Finding>, priority: string -> int, f: Finding)
    requires f in fs
    ensures Answered(f, MergeBy(fs, KeyOf(priority)), KeyOf(priority))
  {
    var key := KeyOf(priority);
    var ranked := Sort(fs, On(key, Outranks));
    RankingIsWeak(key);
    SortSorts(fs, On(key, Outranks));
    SortPermutes(fs, On(key, Outranks));
    SameMembers(ranked, fs, f);
    GreedyAnswers(ranked, key, f);
    var chosen, kept := Chosen(fs, key), MergeBy(fs, key);
    SortPermutes(chosen, On(key, Before));
    SameMembers(chosen, kept, f);
    if f !in chosen {
      var i :| 0 <= i < |chosen| && Beats(chosen[i], f, key);
      SameMembers(chosen, kept, chosen[i]);
      var j :| 0 <= j < |kept| && kept[j] == chosen[i];
      assert Beats(kept[j], f, key);
    }
  }

  /** The second merge of a scan, after entropy candidates clear of the named findings were added, drops no named finding. */
  lemma {:induction false} NamedFindingsSurvive(named: seq<Finding>, extra: seq<Finding>, priority: string -> int, f: Finding)
    requires Apart(named, KeyOf(priority)) && f in named
    requires forall i :: 0 <= i < |extra| ==> !Clashes(extra[i], named, KeyOf(priority))
    ensures f in MergeBy(named + extra, KeyOf(priority))
  {
    var key := KeyOf(priority);
    var all, kept := named + extra, MergeBy(named + extra, key);
    MergeAnswers(all, priority, f);
    MergeIsPart(all, key);
    forall i | 0 <= i < |kept| ensures Beats(kept[i], f, key) ==> kept[i] == f {
      assert kept[i] in multiset(kept);
      assert kept[i] in all;
      ClearOfOthers(named, extra, key, f, kept[i]);
    }
  }

  lemma {:induction false} ClearOfOthers(named: seq<Finding>, extra: seq<Finding>, key: Finding -> Span, f: Finding, g: Finding)
    requires Apart(named, key) && f in named && g in named + extra
    requires forall i :: 0 <= i < |extra| ==> !Clashes(extra[i], named, key)
    ensures Overlap(key(f), key(g)) ==> f == g
  {
    var k :| 0 <= k < |named| && named[k] == f;
    var j :| 0 <= j < |named + extra| && (named + extra)[j] == g;
    if j >= |named| {
      var e := extra[j - |named|];
      assert !Clashes(e, named, key);
      assert !Overlap(key(e), key(named[k]));
    }
  }

  // ---------- idempotence ----------

  lemma {:induction false} GreedyKeepsApart<T>(s: seq<T>, key: T -> Span)
    requires Apart(s, key)
    ensures Greedy(s, key) == s
    decreases |s|
  {
    if s != [] {
      var n := |s| - 1;
      assert Apart(s[..n], key);
      GreedyKeepsApart(s[..n], key);
      assert s == s[..n] + [s[n]];
    }
  }

  lemma {:induction false} InLineIsTotal(fs: seq<Finding>, key: Finding -> Span, priority: string -> int)
    requires NonEmpty(fs) && InLine(fs) && key == KeyOf(priority)
    ensures TotalOn(fs, On(key, Before)) && SortedBy(fs, On(key, Before)) && Apart(fs, key)
  {
    assert forall a, b :: On(key, Before)(a, b) <==> Before(key(a), key(b));
    assert forall i, j :: 0 <= i < j < |fs| ==> fs[i].start < fs[j].start;
    forall a, b | a in fs && b in fs && a != b ensures On(key, Before)(a, b) || On(key, Before)(b, a) {
      var i :| 0 <= i < |fs| && fs[i] == a;
      var j :| 0 <= j < |fs| && fs[j] == b;
    }
  }

  /** Findings in line are left alone. */
  lemma {:induction false} MergeKeepsInLine(fs: seq<Finding>, priority: string -> int)
    requires NonEmpty(fs) && InLine(fs)
    ensures MergeBy(fs, KeyOf(priority)) == fs
  {
    var key := KeyOf(priority);
    InLineIsTotal(fs, key, priority);
    var ranked := Sort(fs, On(key, Outranks));
    SortApart(fs, key, On(key, Outranks));
    GreedyKeepsApart(ranked, key);
    SortPermutes(fs, On(key, Outranks));
    SortPermutes(ranked, On(key, Before));
    RankingIsWeak(key);
    SortSorts(ranked, On(key, Before));
    SortedIsUnique(fs, Sort(ranked, On(key, Before)), On(key, Before));
  }

  lemma {:induction false} MergeIsIdempotent(fs: seq<Finding>, priority: string -> int)
    requires NonEmpty(fs)
    ensures MergeBy(MergeBy(fs, KeyOf(priority)), KeyOf(priority)) == MergeBy(fs, KeyOf(priority))
  {
    MergeIsInLine(fs, priority);
    MergeKeepsInLine(MergeBy(fs, KeyOf(priority)), priority);
  }

  // ---------- independence of the input order ----------

  function Itself(k: Span): Span {
    k
  }

  lemma {:induction false} GreedyByKey<T>(s: seq<T>, key: T -> Span)
    ensures Mapped(Greedy(s, key), key) == Greedy(Mapped(s, key), Itself)
    decreases |s|
  {
    if s != [] {
      var n := |s| - 1;
      GreedyByKey(s[..n], key);
      var kept, keys := Greedy(s[..n], key), Greedy(Mapped(s[..n], key), Itself);
      assert Mapped(s, key)[..n] == Mapped(s[..n], key);
      assert Clashes(s[n], kept, key) <==> Clashes(key(s[n]), keys, Itself) by {
        assert forall i :: 0 <= i < |kept| ==> keys[i] == key(kept[i]);
      }
    }
  }

  lemma {:induction false} MappedItself(s: seq<Span>)
    ensures Mapped(s, Itself) == s
  {
    assert forall i :: 0 <= i < |s| ==> Mapped(s, Itself)[i] == Itself(s[i]);
  }

  lemma {:induction false} ItselfOn(less: (Span, Span) -> bool, s: seq<Span>)
    ensures Sort(s, On(Itself, less)) == Sort(s, less)
  {
    SortByKey(s, Itself, less);
    MappedItself(s);
    MappedItself(Sort(s, On(Itself, less)));
  }

  /** Which spans survive depends on the spans alone. */
  lemma {:induction false} MergeByKey(fs: seq<Finding>, key: Finding -> Span)
    ensures Mapped(MergeBy(fs, key), key) == MergeBy(Mapped(fs, key), Itself)
  {
    SortByKey(fs, key, Outranks);
    ItselfOn(Outranks, Mapped(fs, key));
    GreedyByKey(Sort(fs, On(key, Outranks)), key);
    SortByKey(Chosen(fs, key), key, Before);
    ItselfOn(Before, Mapped(Chosen(fs, key), key));
  }

  lemma {:induction false} SpansSortAlike(a: seq<Span>, b: seq<Span>)
    requires multiset(a) == multiset(b)
    ensures MergeBy(a, Itself) == MergeBy(b, Itself)
  {
    var less := On(Itself, Outranks);
    RankingIsWeak(Itself);
    SortSorts(a, less);
    SortSorts(b, less);
    SortPermutes(a, less);
    SortPermutes(b, less);
    assert TotalOn(Sort(a, less), less);
    SortedIsUnique(Sort(a, less), Sort(b, less), less);
  }

  /** The kept ranks and spans do not depend on the order of the input. */
  lemma {:induction false} MergeIgnoresOrder(a: seq<Finding>, b: seq<Finding>, priority: string -> int)
    requires multiset(a) == multiset(b)
    ensures Mapped(MergeBy(a, KeyOf(priority)), KeyOf(priority)) == Mapped(MergeBy(b, KeyOf(priority)), KeyOf(priority))
  {
    var key := KeyOf(priority);
    MappedPermutes(a, b, key);
    SpansSortAlike(Mapped(a, key), Mapped(b, key));
    MergeByKey(a, key);
    MergeByKey(b, key);
  }

  lemma {:induction false} FirstWithSnoc<T>(s: seq<T>, x: T, key: T -> Span, k: Span)
    ensures FirstWith(s + [x], key, k) ==
            if FirstWith(s, key, k).Some? then FirstWith(s, key, k) else if key(x) == k then Some(x) else None
    decreases |s|
  {
    if s != [] {
      assert (s + [x])[1..] == s[1..] + [x];
      FirstWithSnoc(s[1..], x, key, k);
    } else {
      assert ([] + [x])[1..] == [];
    }
  }

  lemma {:induction false} FirstWithFinds<T>(s: seq<T>, key: T -> Span, k: Span)
    ensures match FirstWith(s, key, k)
            case None => forall i :: 0 <= i < |s| ==> key(s[i]) != k
            case Some(x) => x in s && key(x) == k
  {
    if s != [] {
      FirstWithFinds(s[1..], key, k);
    }
  }

  /** What greedy choice drops clashes with what it keeps. */
  lemma {:induction false} DroppedClashes<T>(s: seq<T>, key: T -> Span, x: T)
    requires x in s
    ensures x in Greedy(s, key) || Clashes(x, Greedy(s, key), key)
    decreases |s|
  {
    var n := |s| - 1;
    var kept := Greedy(s[..n], key);
    if x in s[..n] {
      DroppedClashes(s[..n], key, x);
      if x !in kept {
        var i :| 0 <= i < |kept| && Overlap(key(x), key(kept[i]));
        assert (kept + [s[n]])[i] == kept[i];
      }
    }
  }

  /** If greedy choice keeps anything with key k, the first thing with that key is the first it keeps. */
  lemma {:induction false} GreedyKeepsFirst<T>(s: seq<T>, key: T -> Span, k: Span)
    ensures FirstWith(Greedy(s, key), key, k).Some? ==> FirstWith(Greedy(s, key), key, k) == FirstWith(s, key, k)
    decreases |s|
  {
    if s != [] {
      var n := |s| - 1;
      var front, x, kept := s[..n], s[n], Greedy(s[..n], key);
      assert s == front + [x];
      GreedyKeepsFirst(front, key, k);
      FirstWithSnoc(front, x, key, k);
      FirstWithSnoc(kept, x, key, k);
      if FirstWith(kept, key, k).None? && FirstWith(front, key, k).Some? {
        EarlierClash(front, key, k, x);
      }
    }
  }

  /** Something with x's key came before and nothing with it was kept: then x clashes too. */
  lemma {:induction false} EarlierClash<T>(front: seq<T>, key: T -> Span, k: Span, x: T)
    requires FirstWith(Greedy(front, key), key, k).None? && FirstWith(front, key, k).Some?
    ensures key(x) == k ==> Clashes(x, Greedy(front, key), key)
  {
    var kept, y := Greedy(front, key), FirstWith(front, key, k).value;
    FirstWithFinds(front, key, k);
    FirstWithFinds(kept, key, k);
    DroppedClashes(front, key, y);
    var i :| 0 <= i < |kept| && Overlap(key(y), key(kept[i]));
    assert key(x) == k ==> Overlap(key(x), key(kept[i]));
  }

  /** Of all findings with a kept rank and span, the first one listed is the first one kept. */
  lemma {:induction false} MergeKeepsFirst(fs: seq<Finding>, key: Finding -> Span, k: Span)
    requires FirstWith(MergeBy(fs, key), key, k).Some?
    ensures FirstWith(MergeBy(fs, key), key, k) == FirstWith(fs, key, k)
  {
    SortKeepsFirst(fs, key, Outranks, k);
    GreedyKeepsFirst(Sort(fs, On(key, Outranks)), key, k);
    SortKeepsFirst(Chosen(fs, key), key, Before, k);
  }

  /** No two different findings share a rank and span that the merge of the ranks and spans keeps. */
  ghost predicate Unambiguous(fs: seq<Finding>, key: Finding -> Span) {
    forall i, j :: 0 <= i < |fs| && 0 <= j < |fs| && key(fs[i]) == key(fs[j]) && key(fs[i]) in MergeBy(Mapped(fs, key), Itself) ==>
      fs[i] == fs[j]
  }

  lemma {:induction false} UnambiguousIgnoresOrder(a: seq<Finding>, b: seq<Finding>, key: Finding -> Span)
    requires multiset(a) == multiset(b) && Unambiguous(a, key)
    ensures MergeBy(a, key) == MergeBy(b, key)
  {
    var x, y := MergeBy(a, key), MergeBy(b, key);
    MappedPermutes(a, b, key);
    SpansSortAlike(Mapped(a, key), Mapped(b, key));
    MergeByKey(a, key);
    MergeByKey(b, key);
    MergeIsPart(a, key);
    MergeIsPart(b, key);
    assert |x| == |Mapped(x, key)| == |Mapped(y, key)| == |y|;
    forall i | 0 <= i < |x| ensures x[i] == y[i] {
      assert key(x[i]) == Mapped(x, key)[i] == Mapped(y, key)[i] == key(y[i]);
      assert x[i] in multiset(x) && y[i] in multiset(y);
      assert x[i] in a && y[i] in multiset(a);
    }
  }

  /** s with its element at i moved to the front. */
  function Fronted<T>(s: seq<T>, i: nat): seq<T>
    requires i < |s|
  {
    [s[i]] + Without(s, i)
  }

  lemma {:induction false} FrontedPermutes<T>(s: seq<T>, i: nat)
    requires i < |s|
    ensures multiset(Fronted(s, i)) == multiset(s)
  {
    TakenOut(s, i);
  }

  /** A finding whose rank and span are kept is itself the first kept of them when it is listed first. */
  lemma {:induction false} ListedFirstIsKept(fs: seq<Finding>, key: Finding -> Span, i: nat)
    requires i < |fs| && key(fs[i]) in MergeBy(Mapped(fs, key), Itself)
    ensures FirstWith(MergeBy(Fronted(fs, i), key), key, key(fs[i])) == Some(fs[i])
  {
    var b, k := Fronted(fs, i), key(fs[i]);
    var kept := MergeBy(b, key);
    FrontedPermutes(fs, i);
    MappedPermutes(fs, b, key);
    SpansSortAlike(Mapped(fs, key), Mapped(b, key));
    MergeByKey(b, key);
    var j :| 0 <= j < |Mapped(kept, key)| && Mapped(kept, key)[j] == k;
    assert key(kept[j]) == k;
    FirstWithFinds(kept, key, k);
    MergeKeepsFirst(b, key, k);
  }

  ghost predicate SameForEveryOrder(fs: seq<Finding>, key: Finding -> Span) {
    forall b :: multiset(b) == multiset(fs) ==> MergeBy(b, key) == MergeBy(fs, key)
  }

  /**
   Exactly when the merge, labels and all, does not depend on the order of its input: when no two different findings share a
   span and rank that is kept. A tie among findings that all lose to a better one does no harm.
   */
  lemma {:induction false} MergeIgnoresOrderExactly(fs: seq<Finding>, priority: string -> int)
    ensures SameForEveryOrder(fs, KeyOf(priority)) <==> Unambiguous(fs, KeyOf(priority))
  {
    var key := KeyOf(priority);
    if Unambiguous(fs, key) {
      forall b | multiset(b) == multiset(fs) ensures MergeBy(b, key) == MergeBy(fs, key) {
        UnambiguousIgnoresOrder(fs, b, key);
      }
    }
    if SameForEveryOrder(fs, key) {
      forall i, j | 0 <= i < |fs| && 0 <= j < |fs| && key(fs[i]) == key(fs[j]) && key(fs[i]) in MergeBy(Mapped(fs, key), Itself)
        ensures fs[i] == fs[j]
      {
        ListedFirstIsKept(fs, key, i);
        ListedFirstIsKept(fs, key, j);
        FrontedPermutes(fs, i);
        FrontedPermutes(fs, j);
        assert MergeBy(Fronted(fs, i), key) == MergeBy(fs, key) == MergeBy(Fronted(fs, j), key);
      }
    }
  }

  // ---------- redaction ----------

  function Marker(tag: string): string {
    "[REDACTED:" + tag + "]"
  }

  /** The finding lies in the text; Redact passes over one that does not. */
  predicate Fits(s: string, f: Finding) {
    f.end <= |s|
  }

  /** Whether f continues prev: the same label, in the text, and only a blank gap between them. */
  predicate Continues(s: string, blank: string -> bool, prev: Finding, f: Finding) {
    prev.tag == f.tag && 0 <= prev.end <= f.start <= f.end <= |s| && blank(s[prev.end..f.start])
  }

  /** What Redact asks of its findings, and Merge provides. */
  ghost predicate Presented(fs: seq<Finding>) {
    NonEmpty(fs) && InLine(fs) && forall i :: 0 <= i < |fs| ==> fs[i].start >= 0
  }

  function Coalesced(s: string, blank: string -> bool, fs: seq<Finding>): seq<Finding>
    decreases |fs|
  {
    if fs == [] then []
    else
      var n := |fs| - 1;
      var out := Coalesced(s, blank, fs[..n]);
      var m := |out| - 1;
      if m >= 0 && Continues(s, blank, out[m], fs[n]) then out[m := out[m].(end := fs[n].end)] else out + [fs[n]]
  }

  /** The last span ends where the last finding does and has its label. */
  ghost predicate LastsAgree(out: seq<Finding>, fs: seq<Finding>) {
    if fs == [] then out == []
    else out != [] && out[|out| - 1].end == fs[|fs| - 1].end && out[|out| - 1].tag == fs[|fs| - 1].tag
  }

  lemma {:induction false} PresentedSnoc(fs: seq<Finding>, f: Finding)
    requires Presented(fs) && 0 <= f.start < f.end
    requires fs != [] ==> fs[|fs| - 1].end <= f.start
    ensures Presented(fs + [f])
  {
    var more := fs + [f];
    forall i, j | 0 <= i < j < |more| ensures more[i].end <= more[j].start {
      if j == |fs| && i < j - 1 {
        assert fs[i].end <= fs[j - 1].start;
      }
    }
  }

  lemma {:induction false} PresentedFront(fs: seq<Finding>)
    requires Presented(fs) && fs != []
    ensures Presented(fs[..|fs| - 1])
    ensures |fs| > 1 ==> fs[|fs| - 2].end <= fs[|fs| - 1].start
  {
  }

  lemma {:induction false} CoalescedIsPresented(s: string, blank: string -> bool, fs: seq<Finding>)
    requires Presented(fs)
    ensures Presented(Coalesced(s, blank, fs)) && LastsAgree(Coalesced(s, blank, fs), fs)
    decreases |fs|
  {
    if fs != [] {
      PresentedFront(fs);
      CoalescedIsPresented(s, blank, fs[..|fs| - 1]);
      SpanAdded(s, blank, fs, Coalesced(s, blank, fs[..|fs| - 1]));
    }
  }

  lemma {:induction false} SpanAdded(s: string, blank: string -> bool, fs: seq<Finding>, out: seq<Finding>)
    requires fs != [] && 0 <= fs[|fs| - 1].start < fs[|fs| - 1].end && (|fs| > 1 ==> fs[|fs| - 2].end <= fs[|fs| - 1].start)
    requires out == Coalesced(s, blank, fs[..|fs| - 1]) && Presented(out) && LastsAgree(out, fs[..|fs| - 1])
    ensures Presented(Coalesced(s, blank, fs)) && LastsAgree(Coalesced(s, blank, fs), fs)
  {
    var f, m := fs[|fs| - 1], |out| - 1;
    if m >= 0 && Continues(s, blank, out[m], f) {
      LastExtended(out, f);
    } else {
      PresentedSnoc(out, f);
    }
  }

  lemma {:induction false} LastExtended(out: seq<Finding>, f: Finding)
    requires Presented(out) && out != [] && out[|out| - 1].end <= f.start < f.end
    ensures Presented(out[|out| - 1 := out[|out| - 1].(end := f.end)])
  {
    var m := |out| - 1;
    PresentedFront(out);
    PresentedSnoc(out[..m], out[m].(end := f.end));
    assert out[m := out[m].(end := f.end)] == out[..m] + [out[m].(end := f.end)];
  }

  method CoalesceAdjacent(s: string, blank: string -> bool, fs: seq<Finding>) returns (out: seq<Finding>)
    requires Presented(fs)
    ensures out == Coalesced(s, blank, fs)
  {
    out := [];
    for i := 0 to |fs|
      invariant out == Coalesced(s, blank, fs[..i])
    {
      var f := fs[i];
      assert fs[..i + 1][..i] == fs[..i];
      CoalescedIsPresented(s, blank, fs[..i]);
      if |out| > 0 {
        var prev := out[|out| - 1];
        if prev.tag == f.tag && f.start >= prev.end && f.end <= |s| && blank(s[prev.end..f.start]) {
          if f.end > prev.end {
            out := out[|out| - 1 := prev.(end := f.end)];
          }
          continue;
        }
      }
      out := out + [f];
    }
    assert fs[..|fs|] == fs;
  }

  // The reference: what becomes of each byte, in terms of the findings themselves.

  ghost predicate Joined(s: string, blank: string -> bool, fs: seq<Finding>, j: nat)
    requires j < |fs|
  {
    j > 0 && Continues(s, blank, fs[j - 1], fs[j])
  }

  /** Byte i is in finding j, or in the blank gap before it. */
  ghost predicate MaskedBy(s: string, blank: string -> bool, fs: seq<Finding>, i: int, j: nat)
    requires j < |fs|
  {
    && Fits(s, fs[j])
    && i < fs[j].end
    && (fs[j].start <= i || (Joined(s, blank, fs, j) && fs[j - 1].end <= i))
  }

  ghost predicate Masked(s: string, blank: string -> bool, fs: seq<Finding>, i: int) {
    exists j :: 0 <= j < |fs| && MaskedBy(s, blank, fs, i, j)
  }

  /** Finding j starts at byte i and continues no other. */
  ghost predicate LeadsAt(s: string, blank: string -> bool, fs: seq<Finding>, i: int, j: nat)
    requires j < |fs|
  {
    Fits(s, fs[j]) && fs[j].start == i && !Joined(s, blank, fs, j)
  }

  ghost predicate Marked(s: string, blank: string -> bool, fs: seq<Finding>, i: int, tag: string) {
    exists j :: 0 <= j < |fs| && LeadsAt(s, blank, fs, i, j) && fs[j].tag == tag
  }

  lemma {:induction false} MaskedSnoc(s: string, blank: string -> bool, fs: seq<Finding>, i: int)
    requires Presented(fs) && fs != []
    ensures Masked(s, blank, fs, i) <==> Masked(s, blank, fs[..|fs| - 1], i) || MaskedBy(s, blank, fs, i, |fs| - 1)
  {
    var front := fs[..|fs| - 1];
    assert forall j :: 0 <= j < |front| ==> (MaskedBy(s, blank, front, i, j) <==> MaskedBy(s, blank, fs, i, j));
  }

  lemma {:induction false} MarkedSnoc(s: string, blank: string -> bool, fs: seq<Finding>, i: int, tag: string)
    requires Presented(fs) && fs != []
    ensures Marked(s, blank, fs, i, tag) <==>
            Marked(s, blank, fs[..|fs| - 1], i, tag) || (LeadsAt(s, blank, fs, i, |fs| - 1) && fs[|fs| - 1].tag == tag)
  {
    var front := fs[..|fs| - 1];
    assert forall j :: 0 <= j < |front| ==> (LeadsAt(s, blank, front, i, j) <==> LeadsAt(s, blank, fs, i, j));
  }

  ghost predicate Inside(s: string, f: Finding, i: int) {
    Fits(s, f) && f.start <= i < f.end
  }

  ghost predicate Covered(s: string, out: seq<Finding>, i: int) {
    exists j :: 0 <= j < |out| && Inside(s, out[j], i)
  }

  ghost predicate StartsAt(s: string, f: Finding, i: int, tag: string) {
    Fits(s, f) && f.start == i && f.tag == tag
  }

  ghost predicate Opens(s: string, out: seq<Finding>, i: int, tag: string) {
    exists j :: 0 <= j < |out| && StartsAt(s, out[j], i, tag)
  }

  lemma {:induction false} CoveredSnoc(s: string, out: seq<Finding>, f: Finding, i: int, tag: string)
    ensures Covered(s, out + [f], i) <==> Covered(s, out, i) || Inside(s, f, i)
    ensures Opens(s, out + [f], i, tag) <==> Opens(s, out, i, tag) || StartsAt(s, f, i, tag)
  {
    var more := out + [f];
    assert more[|out|] == f;
    assert forall j :: 0 <= j < |out| ==> more[j] == out[j];
  }

  /** Spans out show byte i as the findings fs do. */
  ghost predicate Shows(s: string, blank: string -> bool, fs: seq<Finding>, out: seq<Finding>, i: int, tag: string) {
    && (Covered(s, out, i) <==> Masked(s, blank, fs, i))
    && (Opens(s, out, i, tag) <==> Marked(s, blank, fs, i, tag))
  }

  lemma {:induction false} ShowsAppended(s: string, blank: string -> bool, fs: seq<Finding>, out: seq<Finding>, i: int, tag: string)
    requires Presented(fs) && fs != []
    requires Shows(s, blank, fs[..|fs| - 1], out, i, tag)
    requires !Joined(s, blank, fs, |fs| - 1)
    ensures Shows(s, blank, fs, out + [fs[|fs| - 1]], i, tag)
  {
    MaskedSnoc(s, blank, fs, i);
    MarkedSnoc(s, blank, fs, i, tag);
    CoveredSnoc(s, out, fs[|fs| - 1], i, tag);
  }

  lemma {:induction false} ShowsExtended(s: string, blank: string -> bool, fs: seq<Finding>, out: seq<Finding>, last: Finding, i: int, tag: string)
    requires Presented(fs) && |fs| > 1
    requires Shows(s, blank, fs[..|fs| - 1], out + [last], i, tag)
    requires Joined(s, blank, fs, |fs| - 1)
    requires last.end == fs[|fs| - 2].end && last.start < last.end
    ensures Shows(s, blank, fs, out + [last.(end := fs[|fs| - 1].end)], i, tag)
  {
    MaskedSnoc(s, blank, fs, i);
    MarkedSnoc(s, blank, fs, i, tag);
    CoveredSnoc(s, out, last, i, tag);
    CoveredSnoc(s, out, last.(end := fs[|fs| - 1].end), i, tag);
  }

  /** Whether a finding continues the one before it is whether it continues the last span. */
  lemma {:induction false} LastSpan(s: string, blank: string -> bool, fs: seq<Finding>) returns (out: seq<Finding>)
    requires Presented(fs) && fs != []
    ensures out == Coalesced(s, blank, fs[..|fs| - 1])
    ensures out == [] <==> |fs| == 1
    ensures out != [] ==>
      var last := out[|out| - 1];
      last.start < last.end == fs[|fs| - 2].end && (Continues(s, blank, last, fs[|fs| - 1]) <==> Joined(s, blank, fs, |fs| - 1))
  {
    PresentedFront(fs);
    CoalescedIsPresented(s, blank, fs[..|fs| - 1]);
    out := Coalesced(s, blank, fs[..|fs| - 1]);
  }

  lemma {:induction false} CoalescedAppends(s: string, blank: string -> bool, fs: seq<Finding>)
    requires Presented(fs) && fs != [] && !Joined(s, blank, fs, |fs| - 1)
    ensures Coalesced(s, blank, fs) == Coalesced(s, blank, fs[..|fs| - 1]) + [fs[|fs| - 1]]
  {
    var out := LastSpan(s, blank, fs);
  }

  lemma {:induction false} CoalescedExtends(s: string, blank: string -> bool, fs: seq<Finding>) returns (out: seq<Finding>, last: Finding)
    requires Presented(fs) && fs != [] && Joined(s, blank, fs, |fs| - 1)
    ensures Coalesced(s, blank, fs[..|fs| - 1]) == out + [last]
    ensures Coalesced(s, blank, fs) == out + [last.(end := fs[|fs| - 1].end)]
    ensures last.end == fs[|fs| - 2].end && last.start < last.end
  {
    var all := LastSpan(s, blank, fs);
    out, last := all[..|all| - 1], all[|all| - 1];
  }

  /** The coalesced spans cover exactly the masked bytes and start exactly at the leading findings. */
  lemma {:induction false} CoalescedShows(s: string, blank: string -> bool, fs: seq<Finding>, i: int, tag: string)
    requires Presented(fs)
    ensures Shows(s, blank, fs, Coalesced(s, blank, fs), i, tag)
    decreases |fs|
  {
    if fs != [] {
      PresentedFront(fs);
      CoalescedShows(s, blank, fs[..|fs| - 1], i, tag);
      if Joined(s, blank, fs, |fs| - 1) {
        var out, last := CoalescedExtends(s, blank, fs);
        ShowsExtended(s, blank, fs, out, last, i, tag);
      } else {
        CoalescedAppends(s, blank, fs);
        ShowsAppended(s, blank, fs, Coalesced(s, blank, fs[..|fs| - 1]), i, tag);
      }
    } else {
      assert Coalesced(s, blank, fs) == [];
    }
  }

  // ---------- the rewritten text ----------

  /** What replaces the findings that begin at byte i: the marker of a leading one. */
  ghost function Mark(s: string, blank: string -> bool, fs: seq<Finding>, i: int): string {
    if j :| 0 <= j < |fs| && LeadsAt(s, blank, fs, i, j) then "[REDACTED:" + fs[j].tag + "]" else ""
  }

  /** What becomes of byte i: a marker where a finding leads, then the byte unless it is masked. */
  ghost function Shown(s: string, blank: string -> bool, fs: seq<Finding>): int -> string {
    i => Mark(s, blank, fs, i) + if Masked(s, blank, fs, i) || !(0 <= i < |s|) then "" else [s[i]]
  }

  /** The outcomes of bytes 0 to i, in order. */
  ghost function Rewritten(shown: int -> string, i: nat): string {
    if i == 0 then "" else Rewritten(shown, i - 1) + shown(i - 1)
  }

  lemma {:induction false} MarkWhereOpen(s: string, blank: string -> bool, fs: seq<Finding>, i: int, tag: string)
    requires Presented(fs)
    ensures Opens(s, Coalesced(s, blank, fs), i, tag) ==> Mark(s, blank, fs, i) == Marker(tag)
  {
    CoalescedShows(s, blank, fs, i, tag);
    if Marked(s, blank, fs, i, tag) {
      var j :| 0 <= j < |fs| && LeadsAt(s, blank, fs, i, j) && fs[j].tag == tag;
      assert forall k :: 0 <= k < |fs| && LeadsAt(s, blank, fs, i, k) ==> k == j;
    }
  }

  lemma {:induction false} NoMarkElsewhere(s: string, blank: string -> bool, fs: seq<Finding>, out: seq<Finding>, i: int)
    requires Presented(fs) && out == Coalesced(s, blank, fs)
    requires forall j :: 0 <= j < |out| ==> !Fits(s, out[j]) || out[j].start != i
    ensures Mark(s, blank, fs, i) == ""
  {
    forall j | 0 <= j < |fs| ensures !LeadsAt(s, blank, fs, i, j) {
      CoalescedShows(s, blank, fs, i, fs[j].tag);
      assert !Opens(s, out, i, fs[j].tag);
      assert !Marked(s, blank, fs, i, fs[j].tag);
    }
  }

  ghost predicate Clear(s: string, out: seq<Finding>, a: int, b: int) {
    forall j :: 0 <= j < |out| ==> !Fits(s, out[j]) || out[j].end <= a || b <= out[j].start
  }

  lemma {:induction false} ClearByte(s: string, blank: string -> bool, fs: seq<Finding>, out: seq<Finding>, i: nat)
    requires Presented(fs) && out == Coalesced(s, blank, fs) && i < |s|
    requires Clear(s, out, i, i + 1)
    ensures Shown(s, blank, fs)(i) == [s[i]]
  {
    CoalescedIsPresented(s, blank, fs);
    CoalescedShows(s, blank, fs, i, "");
    assert !Covered(s, out, i);
    NoMarkElsewhere(s, blank, fs, out, i);
  }

  lemma {:induction false} CoveredByte(s: string, blank: string -> bool, fs: seq<Finding>, out: seq<Finding>, i: nat, j: nat)
    requires Presented(fs) && out == Coalesced(s, blank, fs) && i < |s|
    requires j < |out| && Inside(s, out[j], i)
    ensures Shown(s, blank, fs)(i) == if i == out[j].start then Marker(out[j].tag) else ""
  {
    CoalescedShows(s, blank, fs, i, out[j].tag);
    assert Covered(s, out, i);
    if i == out[j].start {
      assert StartsAt(s, out[j], i, out[j].tag);
      MarkWhereOpen(s, blank, fs, i, out[j].tag);
    } else {
      CoalescedIsPresented(s, blank, fs);
      NoMarkElsewhere(s, blank, fs, out, i);
    }
  }

  /** A stretch of bytes shown as they are is copied. */
  lemma {:induction false} PlainStretch(shown: int -> string, s: string, a: nat, b: nat)
    requires a <= b <= |s|
    requires forall i :: a <= i < b ==> shown(i) == [s[i]]
    ensures Rewritten(shown, b) == Rewritten(shown, a) + s[a..b]
    decreases b
  {
    if a < b {
      PlainStretch(shown, s, a, b - 1);
      assert s[a..b] == s[a..b - 1] + [s[b - 1]];
    }
  }

  /** A stretch of bytes of which only the first shows anything leaves that. */
  lemma {:induction false} MarkerStretch(shown: int -> string, a: nat, b: nat, mark: string)
    requires a < b && shown(a) == mark
    requires forall i :: a < i < b ==> shown(i) == ""
    ensures Rewritten(shown, b) == Rewritten(shown, a) + mark
    decreases b
  {
    if a + 1 < b {
      MarkerStretch(shown, a, b - 1, mark);
    }
  }

  /** What no coalesced span touches is copied. */
  lemma {:induction false} ClearStretch(s: string, blank: string -> bool, fs: seq<Finding>, out: seq<Finding>, a: nat, b: nat)
    requires Presented(fs) && out == Coalesced(s, blank, fs) && a <= b <= |s|
    requires Clear(s, out, a, b)
    ensures Rewritten(Shown(s, blank, fs), b) == Rewritten(Shown(s, blank, fs), a) + s[a..b]
  {
    forall i | a <= i < b ensures Shown(s, blank, fs)(i) == [s[i]] {
      ClearByte(s, blank, fs, out, i);
    }
    PlainStretch(Shown(s, blank, fs), s, a, b);
  }

  /** A coalesced span becomes one marker. */
  lemma {:induction false} MaskedStretch(s: string, blank: string -> bool, fs: seq<Finding>, out: seq<Finding>, j: nat)
    requires Presented(fs) && out == Coalesced(s, blank, fs) && j < |out|
    requires Fits(s, out[j]) && 0 <= out[j].start < out[j].end
    ensures Rewritten(Shown(s, blank, fs), out[j].end) == Rewritten(Shown(s, blank, fs), out[j].start) + Marker(out[j].tag)
  {
    var a, b := out[j].start, out[j].end;
    forall i | a < i < b ensures Shown(s, blank, fs)(i) == "" {
      CoveredByte(s, blank, fs, out, i, j);
    }
    CoveredByte(s, blank, fs, out, a, j);
    MarkerStretch(Shown(s, blank, fs), a, b, Marker(out[j].tag));
  }

  /** One turn of Redact's loop. */
  lemma {:induction false} SpanRewritten(s: string, blank: string -> bool, fs: seq<Finding>, out: seq<Finding>, prev: nat, j: nat)
    requires Presented(fs) && out == Coalesced(s, blank, fs) && j < |out|
    requires Fits(s, out[j]) && prev <= out[j].start < out[j].end
    requires Clear(s, out, prev, out[j].start)
    ensures Rewritten(Shown(s, blank, fs), out[j].end) == Rewritten(Shown(s, blank, fs), prev) + s[prev..out[j].start] + Marker(out[j].tag)
  {
    ClearStretch(s, blank, fs, out, prev, out[j].start);
    MaskedStretch(s, blank, fs, out, j);
  }

  /** The first k spans end by prev, or do not fit; the others start there or later. */
  ghost predicate Passed(s: string, out: seq<Finding>, k: nat, prev: int)
    requires k <= |out|
  {
    && (forall j :: 0 <= j < k ==> !Fits(s, out[j]) || out[j].end <= prev)
    && (forall j :: k <= j < |out| ==> prev <= out[j].start)
  }

  lemma {:induction false} PassOne(s: string, out: seq<Finding>, k: nat, prev: int)
    requires Presented(out) && k < |out| && Passed(s, out, k, prev)
    ensures 0 <= out[k].start < out[k].end && prev <= out[k].start
    ensures Passed(s, out, k + 1, if Fits(s, out[k]) then out[k].end else prev)
    ensures Clear(s, out, prev, out[k].start)
  {
  }

  /** Redact: every byte outside the findings and the blank gaps they span, in order, and one marker for each run of findings. */
  method Redact(s: string, blank: string -> bool, fs: seq<Finding>) returns (text: string)
    requires Presented(fs)
    ensures text == Rewritten(Shown(s, blank, fs), |s|)
  {
    if |fs| == 0 {
      ClearStretch(s, blank, fs, [], 0, |s|);
      assert s[0..|s|] == s;
      return s;
    }
    var out := CoalesceAdjacent(s, blank, fs);
    CoalescedIsPresented(s, blank, fs);
    text := "";
    var prev := 0;
    for k := 0 to |out|
      invariant 0 <= prev <= |s|
      invariant Passed(s, out, k, prev)
      invariant text == Rewritten(Shown(s, blank, fs), prev)
    {
      var f := out[k];
      PassOne(s, out, k, prev);
      if f.start < prev || f.start > |s| || f.end > |s| {
        continue;
      }
      SpanRewritten(s, blank, fs, out, prev, k);
      text := text + s[prev..f.start];
      text := text + Marker(f.tag);
      prev := f.end;
    }
    ClearStretch(s, blank, fs, out, prev, |s|);
    text := text + s[prev..];
  }

  /** Byte i lies in the blank gap between finding j and the one before it, of the same label. */
  ghost predicate InGap(s: string, blank: string -> bool, fs: seq<Finding>, i: int, j: nat)
    requires j < |fs|
  {
    j > 0 && Fits(s, fs[j]) && 0 <= fs[j - 1].end <= i < fs[j].start <= |s| && fs[j - 1].tag == fs[j].tag && blank(s[fs[j - 1].end..fs[j].start])
  }

  /** A marker stands exactly where a finding in the text starts that does not follow one of its own label over a blank gap. */
  lemma {:induction false} MarkedMeans(s: string, blank: string -> bool, fs: seq<Finding>, i: nat, tag: string)
    requires Presented(fs)
    ensures Marked(s, blank, fs, i, tag) <==>
      exists j :: 0 <= j < |fs| && fs[j].start == i && fs[j].tag == tag && fs[j].end <= |s|
        && !(j > 0 && fs[j - 1].tag == tag && blank(s[fs[j - 1].end..i]))
  {
    forall j | 0 <= j < |fs| && fs[j].start == i && fs[j].tag == tag && fs[j].end <= |s|
      ensures j > 0 ==> 0 <= fs[j - 1].end <= i <= |s|
      ensures LeadsAt(s, blank, fs, i, j) <==> !(j > 0 && fs[j - 1].tag == tag && blank(s[fs[j - 1].end..i]))
    {
    }
  }

  /** Every finding in the text is swallowed, and besides them only blank gaps between findings of one label. */
  lemma {:induction false} MaskedMeans(s: string, blank: string -> bool, fs: seq<Finding>, i: nat)
    requires Presented(fs)
    ensures Masked(s, blank, fs, i) <==> exists j :: 0 <= j < |fs| && (Inside(s, fs[j], i) || InGap(s, blank, fs, i, j))
  {
    forall j | 0 <= j < |fs| ensures MaskedBy(s, blank, fs, i, j) <==> Inside(s, fs[j], i) || InGap(s, blank, fs, i, j) {
    }
  }
}
