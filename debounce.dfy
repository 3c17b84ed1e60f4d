/** The debounce window of the exercise counter (job-4-praktik-d6.py:25,97,100,104):
    a `deque(maxlen=6)` of frame flags. Appending to a full window drops the
    oldest entry; the counter asks how many entries equal a given flag.

    The window is a ring buffer over an array of six slots; its contents are
    specified on sequences by `Append` and `Occurrences`. */
module Debounce {

  import opened Options
  import opened FrameFlags

  /** `maxlen` of the deque. */
  const Capacity: nat := 6

  /** Number of entries of `w` equal to `f` (the deque's `count`). */
  function Occurrences(w: seq<Flag>, f: Flag): (n: nat)
    ensures n <= |w|
  {
    if w == [] then 0
    else (if w[0] == f then 1 else 0) + Occurrences(w[1..], f)
  }

  /** The window after appending `f`: the most recent entries of `w + [f]`,
      no more than `Capacity` of them. */
  function Append(w: seq<Flag>, f: Flag): (r: seq<Flag>)
    ensures |r| == if |w| < Capacity then |w| + 1 else Capacity
    ensures r[|r| - 1] == f
    ensures forall i :: 0 <= i < |r| - 1 ==> r[i] == w[|w| + 1 - |r| + i]
  {
    if |w| < Capacity then w + [f] else w[|w| + 1 - Capacity..] + [f]
  }

  /** Appending to a full window evicts the oldest entry and keeps the other five. */
  lemma AppendToFull(w: seq<Flag>, f: Flag)
    requires |w| == Capacity
    ensures Append(w, f) == w[1..] + [f]
  {
  }

  /** Appending to a window with room keeps every entry. */
  lemma AppendWithRoom(w: seq<Flag>, f: Flag)
    requires |w| < Capacity
    ensures Append(w, f) == w + [f]
  {
  }

  /** Counting over a sequence extended at the back, as a loop over the entries does. */
  lemma {:induction false} OccurrencesSnoc(w: seq<Flag>, x: Flag, f: Flag)
    ensures Occurrences(w + [x], f) == Occurrences(w, f) + (if x == f then 1 else 0)
  {
    if w != [] {
      assert (w + [x])[1..] == w[1..] + [x];
      OccurrencesSnoc(w[1..], x, f);
    }
  }

  /** Two different flags together occur at most once per entry. */
  lemma {:induction false} DisjointOccurrences(w: seq<Flag>, a: Flag, b: Flag)
    requires a != b
    ensures Occurrences(w, a) + Occurrences(w, b) <= |w|
  {
    if w != [] {
      DisjointOccurrences(w[1..], a, b);
    }
  }

  /** Dropping entries from the front never adds occurrences. */
  lemma {:induction false} OccurrencesOfSuffix(w: seq<Flag>, k: nat, f: Flag)
    requires k <= |w|
    ensures Occurrences(w[k..], f) <= Occurrences(w, f)
  {
    if k > 0 {
      OccurrencesOfSuffix(w[1..], k - 1, f);
      assert w[1..][k - 1..] == w[k..];
    }
  }

  /** Appending `f` adds at most one occurrence of `f` and none of any other flag. */
  lemma AppendOccurrences(w: seq<Flag>, f: Flag, g: Flag)
    ensures Occurrences(Append(w, f), g) <= Occurrences(w, g) + (if f == g then 1 else 0)
  {
    if |w| >= Capacity {
      OccurrencesSnoc(w[|w| + 1 - Capacity..], f, g);
      OccurrencesOfSuffix(w, |w| + 1 - Capacity, g);
    } else {
      OccurrencesSnoc(w, f, g);
    }
  }

  /** The deque object: a ring buffer of `Capacity` slots holding `Contents`
      in order from oldest to newest. */
  class Window {
    ghost var Contents: seq<Flag>

    var data: array<Flag>
    var start: nat
    var len: nat

    ghost predicate Valid()
      reads this, data
    {
      && data.Length == Capacity
      && start < Capacity
      && len <= Capacity
      && |Contents| == len
      && forall i :: 0 <= i < len ==> Contents[i] == data[Slot(start, i)]
    }

    /** The array slot of the `i`-th oldest entry. */
    static function Slot(start: nat, i: nat): (k: nat)
      requires start < Capacity && i < Capacity
      ensures k < Capacity
    {
      if start + i < Capacity then start + i else start + i - Capacity
    }

    /** An empty window, as `deque(maxlen=6)` creates. */
    constructor ()
      ensures Valid() && fresh(data)
      ensures Contents == []
    {
      data := new Flag[Capacity](_ => None);
      start, len := 0, 0;
      Contents := [];
    }

    /** `debounce.append(flag)`. */
    method Push(f: Flag)
      requires Valid()
      modifies this, data
      ensures Valid() && data == old(data)
      ensures Contents == Append(old(Contents), f)
    {
      ghost var before := Contents;
      if len < Capacity {
        var k := Slot(start, len);
        data[k] := f;
        forall i | 0 <= i < len
          ensures before[i] == data[Slot(start, i)]
        {
          assert Slot(start, i) != k;
        }
        len := len + 1;
        AppendWithRoom(before, f);
      } else {
        var first := start;
        data[first] := f;
        start := if start + 1 < Capacity then start + 1 else 0;
        forall i | 0 <= i < Capacity - 1
          ensures before[i + 1] == data[Slot(start, i)]
        {
          assert Slot(start, i) == Slot(first, i + 1) != first;
        }
        AppendToFull(before, f);
      }
      Contents := Append(before, f);
    }

    /** `debounce.count(f)`: how many entries equal `f`. */
    method CountOf(f: Flag) returns (n: nat)
      requires Valid()
      ensures n == Occurrences(Contents, f)
    {
      n := 0;
      var i := 0;
      while i < len
        invariant i <= len
        invariant n == Occurrences(Contents[..i], f)
      {
        assert Contents[..i + 1] == Contents[..i] + [Contents[i]];
        OccurrencesSnoc(Contents[..i], Contents[i], f);
        if data[Slot(start, i)] == f {
          n := n + 1;
        }
        i := i + 1;
      }
      assert Contents[..len] == Contents;
    }
  }

}
