/**
 Model of the placement of embeddings by reported index
 (internal/openai/embeddings_client.go) and of the test a response must pass
 (internal/providers/openai_compat.go). A vector is a value of type V, or
 absent where the upstream sent none.
 */
module Embeddings {
  import opened Common
  import opened Sorting

  datatype Item<V> = Item(vec: Option<V>, index: int)

  datatype Response<V> = Accepted(vecs: seq<Option<V>>) | WrongCount | MissingVector

  function Blank<V>(n: nat): seq<Option<V>> {
    seq(n, _ => None)
  }

  /** The slots after the first k items have been placed. */
  function Placed<V>(data: seq<Item<V>>, k: nat): (slots: seq<Option<V>>)
    requires k <= |data|
    ensures |slots| == |data|
  {
    if k == 0 then Blank(|data|)
    else
      var d, before := data[k - 1], Placed(data, k - 1);
      if 0 <= d.index < |data| then before[d.index := d.vec] else before
  }

  function Indexes<V>(data: seq<Item<V>>): seq<int> {
    Mapped(data, (d: Item<V>) => d.index)
  }

  /** The indexes reported are those of the inputs, each once. */
  ghost predicate OneEach<V>(data: seq<Item<V>>) {
    multiset(Indexes(data)) == multiset(Indices(|data|))
  }

  /** A filled slot was filled by an item that reported it. */
  lemma {:induction false} FilledBy<V>(data: seq<Item<V>>, k: nat, i: nat)
    requires k <= |data| && i < |data| && Placed(data, k)[i].Some?
    ensures exists j :: 0 <= j < k && data[j].index == i
  {
    if data[k - 1].index != i {
      FilledBy(data, k - 1, i);
    } else {
      assert 0 <= k - 1 < k;
    }
  }

  lemma {:induction false} Holds(s: seq<int>, j: nat)
    requires j < |s|
    ensures s[j] in multiset(s)
  {
  }

  /** Pigeonhole: n numbers among which is each of 0 to n - 1 are those, each once. */
  lemma {:induction false} Pigeonhole(s: seq<int>, n: nat)
    requires |s| == n
    requires forall i :: 0 <= i < n ==> multiset(s)[i] > 0
    ensures multiset(s) == multiset(Indices(n))
  {
    if n == 0 {
      assert s == Indices(0);
    } else {
      assert multiset(s)[n - 1] > 0;
      var j := Find(s, n - 1);
      TakenOut(s, j);
      forall i | 0 <= i < n - 1 ensures multiset(Without(s, j))[i] > 0 {
        assert multiset(s)[i] > 0;
      }
      Pigeonhole(Without(s, j), n - 1);
      assert Indices(n) == Indices(n - 1) + [n - 1];
    }
  }

  lemma {:induction false} Find(s: seq<int>, x: int) returns (j: nat)
    requires multiset(s)[x] > 0
    ensures j < |s| && s[j] == x
    decreases |s|
  {
    j := 0;
    if s[0] != x {
      assert s == [s[0]] + s[1..];
      j := Find(s[1..], x);
      j := j + 1;
    }
  }

  /** Every slot is filled. */
  ghost predicate AllFilled<V>(data: seq<Item<V>>) {
    forall i :: 0 <= i < |data| ==> Placed(data, |data|)[i].Some?
  }

  /** Every item has its vector. */
  ghost predicate AllGiven<V>(data: seq<Item<V>>) {
    forall j :: 0 <= j < |data| ==> data[j].vec.Some?
  }

  lemma {:induction false} AllFilledIsOneEach<V>(data: seq<Item<V>>)
    requires AllFilled(data)
    ensures OneEach(data)
  {
    var s := Indexes(data);
    forall i | 0 <= i < |data| ensures multiset(s)[i] > 0 {
      FilledBy(data, |data|, i);
      var j :| 0 <= j < |data| && data[j].index == i;
      Holds(s, j);
    }
    Pigeonhole(s, |data|);
  }

  lemma {:induction false} IndexesDiffer<V>(data: seq<Item<V>>, a: nat, b: nat)
    requires OneEach(data) && a < b < |data|
    ensures 0 <= data[a].index < |data| && 0 <= data[b].index < |data| && data[a].index != data[b].index
  {
    var s := Indexes(data);
    InRange(s, |data|);
    assert s[a] == data[a].index && s[b] == data[b].index;
    IndicesOnce(|data|, s[a]);
    if s[a] == s[b] {
      SeenTwice(s, a, b);
    }
  }

  /** When each index is reported once, no item overwrites another. */
  lemma {:induction false} NothingOverwritten<V>(data: seq<Item<V>>, k: nat, j: nat)
    requires OneEach(data) && j < k <= |data|
    ensures 0 <= data[j].index < |data| && Placed(data, k)[data[j].index] == data[j].vec
  {
    InRange(Indexes(data), |data|);
    assert Indexes(data)[j] == data[j].index;
    if j < k - 1 {
      NothingOverwritten(data, k - 1, j);
      IndexesDiffer(data, j, k - 1);
    }
  }

  /** Every slot has its item when each index is reported once. */
  lemma {:induction false} SlotHasItem<V>(data: seq<Item<V>>, i: nat) returns (j: nat)
    requires OneEach(data) && i < |data|
    ensures j < |data| && data[j].index == i
  {
    assert Indices(|data|)[i] == i;
    Holds(Indices(|data|), i);
    j := Find(Indexes(data), i);
  }

  lemma {:induction false} FilledIsGiven<V>(data: seq<Item<V>>)
    requires AllFilled(data)
    ensures OneEach(data) && AllGiven(data)
  {
    AllFilledIsOneEach(data);
    forall j | 0 <= j < |data| ensures data[j].vec.Some? {
      NothingOverwritten(data, |data|, j);
    }
  }

  lemma {:induction false} GivenIsFilled<V>(data: seq<Item<V>>)
    requires OneEach(data) && AllGiven(data)
    ensures AllFilled(data)
  {
    forall i | 0 <= i < |data| ensures Placed(data, |data|)[i].Some? {
      var j := SlotHasItem(data, i);
      NothingOverwritten(data, |data|, j);
    }
  }

  /** Every slot is filled exactly when the indexes reported are 0 to n - 1, each once, and every item has its vector. */
  lemma {:induction false} FilledExactly<V>(data: seq<Item<V>>)
    ensures AllFilled(data) <==> OneEach(data) && AllGiven(data)
  {
    if AllFilled(data) {
      FilledIsGiven(data);
    }
    if OneEach(data) && AllGiven(data) {
      GivenIsFilled(data);
    }
  }

  method Decode<V>(data: seq<Item<V>>) returns (out: array<Option<V>>)
    ensures fresh(out) && out[..] == Placed(data, |data|)
  {
    out := new Option<V>[|data|](_ => None);
    assert out[..] == Blank<V>(|data|);
    for k := 0 to |data|
      invariant out[..] == Placed(data, k)
    {
      var d := data[k];
      if 0 <= d.index < out.Length {
        out[d.index] := d.vec;
      }
    }
  }

  /**
   Embeddings on a 2xx response: accepted exactly when there is one item per input,
   the indexes reported are those of the inputs, each once, and every vector is there;
   each input's slot then holds the one vector reported for it.
   */
  method Accept<V>(n: nat, data: seq<Item<V>>) returns (r: Response<V>)
    ensures r.Accepted? <==> |data| == n && OneEach(data) && AllGiven(data)
    ensures r.WrongCount? <==> |data| != n
    ensures r.Accepted? ==> |r.vecs| == n && forall j :: 0 <= j < n ==> 0 <= data[j].index < n && r.vecs[data[j].index] == data[j].vec
  {
    var out := Decode(data);
    if out.Length != n {
      return WrongCount;
    }
    FilledExactly(data);
    for i := 0 to out.Length
      invariant forall h :: 0 <= h < i ==> Placed(data, |data|)[h].Some?
    {
      if out[i].None? {
        assert out[..][i].None?;
        return MissingVector;
      }
      assert out[..][i].Some?;
    }
    forall j | 0 <= j < n ensures 0 <= data[j].index < n && out[..][data[j].index] == data[j].vec {
      NothingOverwritten(data, |data|, j);
    }
    return Accepted(out[..]);
  }
}
