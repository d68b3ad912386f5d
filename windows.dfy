/** Bounded buffers as the services keep them: a Python list grown with `append`
    and cut back with `pop(0)`, a `deque(maxlen=n)` grown with `append` or
    `appendleft`, and a Redis list trimmed with `LTRIM key -n -1` or read with
    `LRANGE key -n -1`. Each bounded buffer is specified against the whole
    arrival sequence it has seen. */
module Windows {

  /** The last `n` elements of `s` (all of `s` when it is shorter), in order: what
      `LTRIM key -n -1` leaves and what `LRANGE key -n -1` returns. */
  function KeepLast<T>(s: seq<T>, n: nat): (r: seq<T>)
    ensures |r| == if |s| <= n then |s| else n
    ensures r == s[|s| - |r|..]
  {
    if |s| <= n then s else s[|s| - n..]
  }

  /** Appending at the right end of a buffer that holds at most `cap` elements:
      the oldest element is evicted when the newcomer would overflow it
      (`deque(maxlen=cap).append`, or `list.append` followed by one `pop(0)`). */
  function Append<T>(w: seq<T>, x: T, cap: nat): (r: seq<T>)
  {
    if |w| + 1 > cap then (w + [x])[1..] else w + [x]
  }

  /** Appending at the left end of a buffer that holds at most `cap` elements:
      the element at the right end is evicted on overflow
      (`deque(maxlen=cap).appendleft`). */
  function AppendLeft<T>(w: seq<T>, x: T, cap: nat): (r: seq<T>)
  {
    if |w| + 1 > cap then ([x] + w)[..|w|] else [x] + w
  }

  /** The elements of `s` in the opposite order. */
  function Reverse<T>(s: seq<T>): (r: seq<T>)
    ensures |r| == |s|
    ensures forall i :: 0 <= i < |s| ==> r[i] == s[|s| - 1 - i]
  {
    seq(|s|, i requires 0 <= i < |s| => s[|s| - 1 - i])
  }

  /** A right-appending buffer that held the last `n` arrivals holds the last `n`
      arrivals once one more comes: eviction keeps exactly the newest. */
  lemma AppendKeepsNewest<T>(s: seq<T>, x: T, n: nat)
    ensures Append(KeepLast(s, n), x, n) == KeepLast(s + [x], n)
  {
    var k := KeepLast(s, n);
    if |k| + 1 > n {
      assert |s| >= n;
      assert (k + [x])[1..] == (s + [x])[|s| + 1 - n..];
    }
  }

  /** Trimming after every append gives the same list as trimming once at the end. */
  lemma TrimAfterEachAppend<T>(s: seq<T>, x: T, n: nat)
    ensures KeepLast(KeepLast(s, n) + [x], n) == KeepLast(s + [x], n)
  {
    AppendKeepsNewest(s, x, n);
    var k := KeepLast(s, n);
    if |k| + 1 > n {
      assert KeepLast(k + [x], n) == (k + [x])[1..];
    }
  }

  /** A left-appending buffer that held the last `n` arrivals newest first still
      does once one more comes. */
  lemma AppendLeftKeepsNewest<T>(s: seq<T>, x: T, n: nat)
    ensures AppendLeft(Reverse(KeepLast(s, n)), x, n) == Reverse(KeepLast(s + [x], n))
  {
    if |s| < n {
      PrependReverses(s, x);
    } else {
      PrependReversesFull(s, x, n);
    }
  }

  lemma PrependReverses<T>(s: seq<T>, x: T)
    ensures [x] + Reverse(s) == Reverse(s + [x])
  {
    var lhs, rhs := [x] + Reverse(s), Reverse(s + [x]);
    forall i | 0 <= i < |lhs| ensures lhs[i] == rhs[i] {
      if i > 0 {
        assert lhs[i] == Reverse(s)[i - 1];
      }
    }
  }

  lemma PrependReversesFull<T>(s: seq<T>, x: T, n: nat)
    requires n <= |s|
    ensures ([x] + Reverse(s[|s| - n..]))[..n] == Reverse((s + [x])[|s| + 1 - n..])
  {
    var k, k' := s[|s| - n..], (s + [x])[|s| + 1 - n..];
    var lhs, rhs := ([x] + Reverse(k))[..n], Reverse(k');
    forall i | 0 <= i < n ensures lhs[i] == rhs[i] {
      if i > 0 {
        assert lhs[i] == Reverse(k)[i - 1] == s[|s| - i];
      }
    }
  }
}
