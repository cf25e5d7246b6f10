/** The list helpers of the scraper and of the notebook utilities: `flatten` (present,
    identically, in both files), the generator `chunks` and the loop `chunk_list`. */
module ListUtils {
  import opened Wrappers

  function Min(a: int, b: int): int { if a <= b then a else b }

  /** Total number of elements over all sublists. */
  function SumLengths<T>(l: seq<seq<T>>): nat {
    if l == [] then 0 else |l[0]| + SumLengths(l[1..])
  }

  /** `[item for sublist in l for item in sublist]`: the sublists concatenated in order. */
  function Flatten<T>(l: seq<seq<T>>): (r: seq<T>)
    ensures |r| == SumLengths(l)
  {
    if l == [] then [] else l[0] + Flatten(l[1..])
  }

  /** Flattening distributes over concatenation of the outer list. */
  lemma {:induction false} FlattenAppend<T>(a: seq<seq<T>>, b: seq<seq<T>>)
    ensures Flatten(a + b) == Flatten(a) + Flatten(b)
  {
    if a != [] {
      assert (a + b)[1..] == a[1..] + b;
      FlattenAppend(a[1..], b);
    } else {
      assert a + b == b;
    }
  }

  /** Element `k` of the flattening is element `k - |l[0]| - ...` of the sublist that holds it:
      every sublist appears whole, in place, at the offset given by the lengths before it. */
  lemma {:induction false} FlattenSublistAt<T>(l: seq<seq<T>>, i: nat)
    requires i < |l|
    ensures SumLengths(l[..i]) + |l[i]| <= |Flatten(l)|
    ensures Flatten(l)[SumLengths(l[..i])..SumLengths(l[..i]) + |l[i]|] == l[i]
  {
    if i == 0 {
      assert l[..0] == [];
    } else {
      assert l[1..][..i - 1] == l[..i][1..];
      FlattenSublistAt(l[1..], i - 1);
    }
  }

  /** The successive `n`-sized slices `s[0:n]`, `s[n:2n]`, ... that `chunks` yields for `n > 0`.
      Chunking loses nothing and reorders nothing. */
  function Chunked<T>(s: seq<T>, n: nat): (r: seq<seq<T>>)
    requires n > 0
    ensures Flatten(r) == s
    decreases |s|
  {
    if |s| == 0 then []
    else if |s| <= n then
      assert [s][1..] == [];
      [s]
    else
      var rest := Chunked(s[n..], n);
      var r := [s[..n]] + rest;
      assert r[1..] == rest;
      assert s == s[..n] + s[n..];
      r
  }

  /** `ceil(|s| / n)` chunks, each but the last exactly `n` long, the last non-empty. */
  lemma ChunkedShape<T>(s: seq<T>, n: nat)
    requires n > 0
    ensures |Chunked(s, n)| == (|s| + n - 1) / n
    ensures s == [] <==> Chunked(s, n) == []
    ensures forall i :: 0 <= i < |Chunked(s, n)| - 1 ==> |Chunked(s, n)[i]| == n
    ensures s != [] ==> 0 < |Chunked(s, n)[|Chunked(s, n)| - 1]| <= n
  {
    ChunkedCount(s, n);
    ChunkedSizes(s, n);
  }

  lemma {:induction false} ChunkedCount<T>(s: seq<T>, n: nat)
    requires n > 0
    ensures |Chunked(s, n)| == (|s| + n - 1) / n
  {
    if 0 < |s| <= n {
      DivUnique(|s| + n - 1, n, 1, |s| - 1);
    } else if |s| > n {
      ChunkedCount(s[n..], n);
      assert |Chunked(s, n)| == 1 + |Chunked(s[n..], n)|;
      DivShift(|s| - 1, n);
    }
  }

  lemma {:induction false} ChunkedSizes<T>(s: seq<T>, n: nat)
    requires n > 0
    ensures s == [] <==> Chunked(s, n) == []
    ensures forall i :: 0 <= i < |Chunked(s, n)| - 1 ==> |Chunked(s, n)[i]| == n
    ensures s != [] ==> 0 < |Chunked(s, n)[|Chunked(s, n)| - 1]| <= n
  {
    var r := Chunked(s, n);
    if |s| > n {
      ChunkedSizes(s[n..], n);
      var rest := Chunked(s[n..], n);
      assert r == [s[..n]] + rest;
      forall i | 0 <= i < |r| - 1
        ensures |r[i]| == n
      {
        if i > 0 {
          assert r[i] == rest[i - 1];
        }
      }
    }
  }

  /** Every chunk is non-empty and at most `n` long. */
  lemma ChunksBounded<T>(s: seq<T>, n: nat)
    requires n > 0
    ensures forall b :: b in Chunked(s, n) ==> 1 <= |b| <= n
  {
    var r := Chunked(s, n);
    ChunkedSizes(s, n);
    forall b | b in r
      ensures 1 <= |b| <= n
    {
      var i :| 0 <= i < |r| && r[i] == b;
    }
  }

  lemma DivShift(x: nat, n: nat)
    requires n > 0
    ensures (x + n) / n == x / n + 1
  {
    var q, r := x / n, x % n;
    assert x + n == (q + 1) * n + r;
    DivUnique(x + n, n, q + 1, r);
  }

  lemma DivUnique(a: int, n: int, q: int, r: int)
    requires n > 0 && 0 <= r < n && a == q * n + r
    ensures a / n == q
  {
    var d := a / n - q;
    assert d * n == r - a % n;
  }

  /** `list(chunks(lst, n))`: `range(0, len(lst), n)` raises ValueError for `n == 0` and is
      empty for a negative `n`. */
  function Chunks<T>(lst: seq<T>, n: int): (r: Result<seq<seq<T>>>)
    ensures r.Err? <==> n == 0
    ensures r.Err? ==> r.error == ValueError
    ensures n < 0 ==> r == Ok([])
    ensures n > 0 ==> Flatten(r.value) == lst && |r.value| == (|lst| + n - 1) / n
  {
    if n == 0 then Err(ValueError)
    else if n < 0 then Ok([])
    else
      ChunkedShape(lst, n);
      Ok(Chunked(lst, n))
  }

  /** Chunking from offset `x` on takes the slice `s[x:y]`, `y == x + n` clipped to the end
      `end == |s|`, then chunks from `y` on. */
  lemma ChunkedStep<T>(s: seq<T>, x: nat, y: nat, n: nat, end: nat)
    requires n > 0 && end == |s| && x < end && y == x + n
    ensures Chunked(s[x..], n) == [s[x..Min(y, end)]] + Chunked(s[Min(y, end)..], n)
  {
    if end - x <= n {
      assert s[x..Min(y, end)] == s[x..];
      assert s[Min(y, end)..] == [];
    } else {
      assert s[x..][..n] == s[x..Min(y, end)];
      assert s[x..][n..] == s[Min(y, end)..];
    }
  }

  /** Appending the slice at `x` to the chunks taken so far, giving `next`, leaves the chunks
      from `y == x + n` on; `end` is the length of `s`. */
  lemma AppendChunk<T>(s: seq<T>, done: seq<seq<T>>, next: seq<seq<T>>, x: nat, y: nat, n: nat, end: nat)
    requires n > 0 && end == |s| && x < end && y == x + n
    requires done + Chunked(s[Min(x, end)..], n) == Chunked(s, n)
    requires next == done + [s[x..Min(y, end)]]
    ensures next + Chunked(s[Min(y, end)..], n) == Chunked(s, n)
  {
    ChunkedStep(s, x, y, n, end);
    assert s[Min(x, end)..] == s[x..];
    AppendAssoc(done, [s[x..Min(y, end)]], Chunked(s[Min(y, end)..], n));
  }

  lemma AppendAssoc<T>(a: seq<T>, b: seq<T>, c: seq<T>)
    ensures (a + b) + c == a + (b + c)
  {
  }

  /** `chunk_list`: the same slicing as `chunks`, written as a loop that appends each slice. */
  method ChunkList<T>(list: seq<T>, chunkSize: int) returns (r: Result<seq<seq<T>>>)
    ensures r == Chunks(list, chunkSize)
  {
    if chunkSize == 0 {
      return Err(ValueError);
    }
    var start, end := 0, |list|;
    var result: seq<seq<T>> := [];
    var i := start;
    while if chunkSize > 0 then i < end else i > end
      invariant 0 <= i
      invariant chunkSize < 0 ==> i == 0 && result == []
      invariant chunkSize > 0 ==> result + Chunked(list[Min(i, end)..], chunkSize) == Chunked(list, chunkSize)
      decreases if chunkSize > 0 then end - i else i - end
    {
      var x := i;
      var slice := list[x..Min(x + chunkSize, end)];
      ghost var done := result;
      result := result + [slice];
      i := i + chunkSize;
      AppendChunk(list, done, result, x, i, chunkSize, end);
    }
    if chunkSize > 0 {
      assert list[Min(i, end)..] == [];
      assert result + [] == result;
      assert result == Chunked(list, chunkSize);
    }
    return Ok(result);
  }
}
