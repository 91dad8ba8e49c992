/**
 * The evicting sample filter used to smooth noisy vision readings: a list of at most `size`
 * samples, newest first, with a running sum for the average and a sorted copy for the median.
 */
module RingBuffers {
  import opened Numerics

  function Sum(s: seq<real>): real
  {
    if s == [] then 0.0 else s[0] + Sum(s[1..])
  }

  lemma {:induction false} SumConcat(a: seq<real>, b: seq<real>)
    ensures Sum(a + b) == Sum(a) + Sum(b)
  {
    if a == [] {
      assert a + b == b;
    } else {
      assert (a + b)[1..] == a[1..] + b;
      SumConcat(a[1..], b);
    }
  }

  /** The arithmetic mean, 0.0 for no samples. */
  function Mean(s: seq<real>): (r: real)
    ensures s == [] ==> r == 0.0
    ensures s != [] ==> r * (|s| as real) == Sum(s)
  {
    if s == [] then 0.0 else Sum(s) / (|s| as real)
  }

  function Reverse(s: seq<real>): (r: seq<real>)
    ensures |r| == |s|
    ensures forall i :: 0 <= i < |s| ==> r[i] == s[|s| - 1 - i]
  {
    if s == [] then [] else Reverse(s[1..]) + [s[0]]
  }

  /** The last min(|h|, n) samples of the history `h`, newest first. */
  function Window(h: seq<real>, n: nat): (w: seq<real>)
    ensures |w| == Min(|h|, n)
    ensures forall i :: 0 <= i < |w| ==> w[i] == h[|h| - 1 - i]
  {
    if |h| <= n then Reverse(h) else Reverse(h[|h| - n..])
  }

  /** Adding a sample puts it in front of the window and drops the oldest one once it is full. */
  lemma WindowPush(h: seq<real>, n: nat, x: real)
    requires n >= 1
    ensures var w := Window(h, n);
      Window(h + [x], n) == [x] + (if |w| == n then w[..n - 1] else w)
  {
    var w := Window(h, n);
    var v := [x] + (if |w| == n then w[..n - 1] else w);
    var h' := h + [x];
    assert |Window(h', n)| == |v|;
    forall i | 0 <= i < |v|
      ensures Window(h', n)[i] == v[i]
    {
      if i > 0 {
        assert v[i] == w[i - 1] == h[|h| - i];
      }
    }
  }

  /** The last min(|h|, n) samples of `h`, oldest first. */
  function LastN(h: seq<real>, n: nat): seq<real>
  {
    h[|h| - Min(|h|, n)..]
  }

  /** Only the last `n` samples decide the window. */
  lemma WindowKeepsLastN(h1: seq<real>, h2: seq<real>, n: nat)
    requires LastN(h1, n) == LastN(h2, n)
    ensures Window(h1, n) == Window(h2, n)
  {
    var k := Min(|h1|, n);
    assert |LastN(h1, n)| == k == Min(|h2|, n);
    forall i | 0 <= i < k
      ensures Window(h1, n)[i] == Window(h2, n)[i]
    {
      assert h1[|h1| - 1 - i] == LastN(h1, n)[k - 1 - i];
      assert h2[|h2| - 1 - i] == LastN(h2, n)[k - 1 - i];
    }
  }

  ghost predicate IsSorted(t: seq<real>)
  {
    forall i, j :: 0 <= i < j < |t| ==> t[i] <= t[j]
  }

  function Insert(x: real, t: seq<real>): (r: seq<real>)
    ensures multiset(r) == multiset(t) + multiset{x}
  {
    if t == [] then [x]
    else if x <= t[0] then [x] + t
    else
      assert t == [t[0]] + t[1..];
      [t[0]] + Insert(x, t[1..])
  }

  /** Inserting a value no smaller than `lo` among values no smaller than `lo` keeps them so. */
  lemma InsertLowerBound(x: real, t: seq<real>, lo: real)
    requires lo <= x && forall k :: 0 <= k < |t| ==> lo <= t[k]
    ensures forall j :: 0 <= j < |Insert(x, t)| ==> lo <= Insert(x, t)[j]
  {
    var r := Insert(x, t);
    forall j | 0 <= j < |r|
      ensures lo <= r[j]
    {
      assert r[j] in multiset(r);
      if r[j] != x {
        assert r[j] in multiset(t);
        var k :| 0 <= k < |t| && t[k] == r[j];
      }
    }
  }

  lemma {:induction false} InsertSorted(x: real, t: seq<real>)
    requires IsSorted(t)
    ensures IsSorted(Insert(x, t))
  {
    if t != [] && x > t[0] {
      var rest := Insert(x, t[1..]);
      InsertSorted(x, t[1..]);
      assert forall k :: 0 <= k < |t[1..]| ==> t[0] <= t[1..][k] by {
        forall k | 0 <= k < |t[1..]| ensures t[0] <= t[1..][k] {
          assert t[1..][k] == t[k + 1];
        }
      }
      InsertLowerBound(x, t[1..], t[0]);
      PrependSorted(t[0], rest);
      assert Insert(x, t) == [t[0]] + rest;
    }
  }

  /** A value no greater than any of a sorted sequence can go in front of it. */
  lemma PrependSorted(a: real, rest: seq<real>)
    requires IsSorted(rest) && forall j :: 0 <= j < |rest| ==> a <= rest[j]
    ensures IsSorted([a] + rest)
  {
    var r := [a] + rest;
    forall i, j | 0 <= i < j < |r|
      ensures r[i] <= r[j]
    {
      assert r[j] == rest[j - 1];
      if i > 0 {
        assert r[i] == rest[i - 1];
      }
    }
  }

  /** A sorted copy of the samples (Kotlin's `sorted()`); the argument itself is not changed. */
  function SortedCopy(s: seq<real>): (t: seq<real>)
    ensures IsSorted(t)
    ensures multiset(t) == multiset(s)
  {
    if s == [] then []
    else
      assert s == [s[0]] + s[1..];
      InsertSorted(s[0], SortedCopy(s[1..]));
      Insert(s[0], SortedCopy(s[1..]))
  }

  /** Two sorted arrangements of the same samples are the same sequence. */
  lemma {:induction false} SortedPermutationUnique(a: seq<real>, b: seq<real>)
    requires IsSorted(a) && IsSorted(b)
    requires multiset(a) == multiset(b)
    ensures a == b
  {
    assert |a| == |multiset(a)| == |multiset(b)| == |b|;
    if a != [] {
      assert a[0] in multiset(b);
      assert b[0] in multiset(a);
      assert b[0] <= a[0] && a[0] <= b[0];
      assert a == [a[0]] + a[1..];
      assert b == [b[0]] + b[1..];
      assert multiset(a) == multiset{a[0]} + multiset(a[1..]);
      assert multiset(b) == multiset{a[0]} + multiset(b[1..]);
      assert multiset(a[1..]) == multiset(a) - multiset{a[0]};
      assert multiset(b[1..]) == multiset(b) - multiset{a[0]};
      SortedPermutationUnique(a[1..], b[1..]);
    }
  }

  lemma SortedCopyIsTheSortedPermutation(s: seq<real>)
    ensures forall t :: IsSorted(t) && multiset(t) == multiset(s) ==> t == SortedCopy(s)
  {
    forall t | IsSorted(t) && multiset(t) == multiset(s)
      ensures t == SortedCopy(s)
    {
      SortedPermutationUnique(t, SortedCopy(s));
    }
  }

  /** The middle of a sorted list: the central value, or the mean of the two central values. */
  function Middle(t: seq<real>): real
    requires |t| > 0
  {
    var n := |t|;
    if n % 2 == 0 then (t[n / 2] + t[n / 2 - 1]) / 2.0 else t[(n - 1) / 2]
  }

  class RingBuffer {
    const size: int
    var buffer: seq<real>
    var numElements: int
    var sum: real
    /** The samples added since construction or the last clear, oldest first. */
    ghost var history: seq<real>

    ghost predicate Valid()
      reads this
    {
      && size >= 1
      && numElements == |buffer|
      && sum == Sum(buffer)
      && buffer == Window(history, size)
    }

    constructor (size: int)
      requires size >= 1
      ensures Valid()
      ensures this.size == size && buffer == [] && history == []
    {
      this.size := size;
      buffer := [];
      numElements := 0;
      sum := 0.0;
      history := [];
    }

    /** Inserts the sample at index 0, evicting the oldest sample first when already full. */
    method Add(element: real)
      requires Valid()
      modifies this
      ensures Valid()
      ensures history == old(history) + [element]
      ensures numElements == Min(old(numElements) + 1, size)
      ensures buffer == [element] + old(buffer)[..numElements - 1]
    {
      WindowPush(history, size, element);
      if numElements > size - 1 {
        assert buffer[..size - 1] + [buffer[size - 1]] == buffer;
        SumConcat(buffer[..size - 1], [buffer[size - 1]]);
        sum := sum - buffer[size - 1];
        buffer := buffer[..size - 1];
        numElements := numElements - 1;
      } else {
        assert buffer[..numElements] == buffer;
      }
      assert ([element] + buffer)[1..] == buffer;
      sum := sum + element;
      buffer := [element] + buffer;
      numElements := numElements + 1;
      history := history + [element];
    }

    method Clear()
      requires Valid()
      modifies this
      ensures Valid()
      ensures buffer == [] && history == [] && numElements == 0 && sum == 0.0
    {
      buffer := [];
      sum := 0.0;
      numElements := 0;
      history := [];
    }

    /** The running sum divided by the count: the mean of the held samples. */
    function Average(): (r: real)
      reads this
      requires Valid()
      ensures r == Mean(buffer)
    {
      if numElements == 0 then 0.0 else sum / (numElements as real)
    }

    /** The median of the held samples, computed on a sorted copy. */
    function Median(): (r: real)
      reads this
      requires Valid()
      ensures numElements == 0 ==> r == 0.0
      ensures forall t {:trigger Middle(t)} :: |t| == numElements > 0 && IsSorted(t) && multiset(t) == multiset(buffer)
                          ==> r == Middle(t)
    {
      if numElements == 0 then 0.0
      else
        SortedCopyIsTheSortedPermutation(buffer);
        Middle(SortedCopy(buffer))
    }
  }

  /** Capacity 3 after four samples: the average is that of the last three only. */
  method AverageAfterOverflow() returns (average: real)
    ensures average == 3.0
  {
    var b := new RingBuffer(3);
    b.Add(1.0);
    b.Add(2.0);
    b.Add(3.0);
    b.Add(4.0);
    assert b.buffer == [4.0, 3.0, 2.0];
    assert Sum([2.0]) == 2.0;
    assert [3.0, 2.0][1..] == [2.0];
    assert Sum([3.0, 2.0]) == 5.0;
    assert [4.0, 3.0, 2.0][1..] == [3.0, 2.0];
    assert Sum(b.buffer) == 9.0;
    average := b.Average();
  }

  /** A buffer of the given capacity after adding the samples in order. */
  method FromSamples(capacity: int, samples: seq<real>) returns (b: RingBuffer)
    requires capacity >= 1
    ensures fresh(b) && b.Valid() && b.size == capacity && b.history == samples
  {
    b := new RingBuffer(capacity);
    for i := 0 to |samples|
      invariant fresh(b) && b.Valid() && b.size == capacity && b.history == samples[..i]
    {
      b.Add(samples[i]);
      assert samples[..i + 1] == samples[..i] + [samples[i]];
    }
  }

  /** Capacity 2 after 3, 1, 2: only 1 and 2 remain, and their median is 1.5. */
  method MedianOfEvenCount() returns (median: real)
    ensures median == 1.5
  {
    var t := [1.0, 2.0];
    assert IsSorted(t) && Middle(t) == 1.5 && multiset(t) == multiset([2.0, 1.0]);
    var b := FromSamples(2, [3.0, 1.0, 2.0]);
    assert b.buffer == [2.0, 1.0];
    median := b.Median();
  }

  /** The median of 2, 3, 1 is 2. */
  method MedianOfOddCount() returns (median: real)
    ensures median == 2.0
  {
    var t := [1.0, 2.0, 3.0];
    assert IsSorted(t) && Middle(t) == 2.0 && multiset(t) == multiset([1.0, 3.0, 2.0]);
    var b := FromSamples(4, [2.0, 3.0, 1.0]);
    assert b.buffer == [1.0, 3.0, 2.0];
    median := b.Median();
  }
}
