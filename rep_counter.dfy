/** The repetition counter of job-4-praktik-d6.py: a two-phase state machine
    (`state` in {up, down}, starting at up with `count` 0) fed one flag per
    processed frame through the debounce window. The phase changes only when
    at least `SampleOk` entries of the window agree, and `count` rises only on
    a down-to-up change.

    `Step` is the specification of one frame (d6.py:97-106); `Counter` is the
    imperative counter whose `Observe` is proved to implement it. */
module RepCounter {

  import opened Options
  import opened FrameFlags
  import opened Debounce

  /** Minimum number of agreeing entries before the phase changes. */
  const SampleOk: nat := 4

  /** The counter's state: the debounce window, the phase and the count. */
  datatype State = State(window: seq<Flag>, phase: Phase, count: nat)

  /** Empty window, phase up, count 0 (d6.py:23-25). */
  const Initial: State := State([], Up, 0)

  /** The guard of the up-to-down change (d6.py:100). */
  predicate DownCommit(window: seq<Flag>, phase: Phase)
  {
    Occurrences(window, Some(Down)) >= SampleOk && phase == Up
  }

  /** The guard of the down-to-up change (d6.py:104). */
  predicate UpCommit(window: seq<Flag>, phase: Phase)
  {
    Occurrences(window, Some(Up)) >= SampleOk && phase == Down
  }

  /** One observed flag: append it, then the two checks in sequence, the
      second seeing the phase the first may have set. */
  function Step(s: State, f: Flag): (t: State)
    ensures t.window == Append(s.window, f)
    ensures t.count == s.count || (s.phase == Down && t.phase == Up && t.count == s.count + 1)
    ensures t.phase != s.phase && t.phase == Down ==> Occurrences(t.window, Some(Down)) >= SampleOk
    ensures t.phase != s.phase && t.phase == Up ==> Occurrences(t.window, Some(Up)) >= SampleOk
  {
    var window := Append(s.window, f);
    NoConflictingMajorities(window);
    var phase := if DownCommit(window, s.phase) then Down else s.phase;
    if UpCommit(window, phase) then State(window, Up, s.count + 1)
    else State(window, phase, s.count)
  }

  /** One frame of the capture loop: a frame with no detected person is
      skipped entirely (d6.py:53); otherwise its flag is observed. */
  function Frame(s: State, mode: Mode, detected: Option<Measures>): (t: State)
    ensures detected == None ==> t == s
    ensures detected != None ==> t.window == Append(s.window, FlagOf(mode, detected.value))
    ensures t.count == s.count || (s.phase == Down && t.phase == Up && t.count == s.count + 1)
  {
    match detected
    case None => s
    case Some(m) => Step(s, FlagOf(mode, m))
  }

  /** The state after observing `flags` in order. */
  function Run(s: State, flags: seq<Flag>): (t: State)
    ensures s.count <= t.count <= s.count + |flags|
    decreases |flags|
  {
    if flags == [] then s else Run(Step(s, flags[0]), flags[1..])
  }

  /** The state after a session of frames in one mode. */
  function Session(s: State, mode: Mode, frames: seq<Option<Measures>>): (t: State)
    ensures s.count <= t.count <= s.count + |frames|
    decreases |frames|
  {
    if frames == [] then s else Session(Frame(s, mode, frames[0]), mode, frames[1..])
  }

  /** The flags of the frames in which a person was detected, in order. */
  function DetectedFlags(mode: Mode, frames: seq<Option<Measures>>): seq<Flag>
  {
    if frames == [] then []
    else
      var rest := DetectedFlags(mode, frames[1..]);
      match frames[0]
      case None => rest
      case Some(m) => [FlagOf(mode, m)] + rest
  }

  /** What holds after every frame: the window is bounded, phase up means
      fewer than `SampleOk` downs, phase down fewer than `SampleOk` ups. */
  predicate Consistent(s: State)
  {
    && |s.window| <= Capacity
    && (s.phase == Up ==> Occurrences(s.window, Some(Down)) < SampleOk)
    && (s.phase == Down ==> Occurrences(s.window, Some(Up)) < SampleOk)
  }

  /** A window of six cannot hold four downs and four ups. */
  lemma NoConflictingMajorities(w: seq<Flag>)
    requires |w| <= Capacity
    ensures Occurrences(w, Some(Down)) < SampleOk || Occurrences(w, Some(Up)) < SampleOk
  {
    DisjointOccurrences(w, Some(Down), Some(Up));
  }

  /** The counter starts consistent. */
  lemma InitialConsistent()
    ensures Consistent(Initial) && Initial.phase == Up && Initial.count == 0
  {
  }

  /** Every frame ends in a consistent state, whatever the state before. */
  lemma StepConsistent(s: State, f: Flag)
    ensures Consistent(Step(s, f))
  {
    NoConflictingMajorities(Append(s.window, f));
  }

  /** At most one phase change per frame: if the first check fires, the
      second cannot fire in the same frame. */
  lemma AtMostOneChange(s: State, f: Flag)
    ensures var w := Append(s.window, f);
      DownCommit(w, s.phase) ==> !UpCommit(w, Down)
    ensures Step(s, f).phase == s.phase ==> Step(s, f).count == s.count
  {
    NoConflictingMajorities(Append(s.window, f));
  }

  /** From phase up: the phase goes down exactly when the new window holds at
      least `SampleOk` downs, and the count never changes. */
  lemma FromUp(s: State, f: Flag)
    requires s.phase == Up
    ensures Step(s, f).count == s.count
    ensures Step(s, f).phase == Down <==> Occurrences(Append(s.window, f), Some(Down)) >= SampleOk
  {
    NoConflictingMajorities(Append(s.window, f));
  }

  /** From phase down: the phase goes up exactly when the new window holds at
      least `SampleOk` ups, and then the count rises by exactly one. */
  lemma FromDown(s: State, f: Flag)
    requires s.phase == Down
    ensures Step(s, f).phase == Up <==> Occurrences(Append(s.window, f), Some(Up)) >= SampleOk
    ensures Step(s, f).count == if Step(s, f).phase == Up then s.count + 1 else s.count
  {
  }

  /** The count never decreases, and rises by one exactly on a down-to-up change. */
  lemma CountStep(s: State, f: Flag)
    ensures Step(s, f).count == s.count + (if s.phase == Down && Step(s, f).phase == Up then 1 else 0)
  {
    NoConflictingMajorities(Append(s.window, f));
  }

  /** From a consistent state, a phase change is triggered only by a flag of
      the new phase; in particular a `None` flag changes neither phase nor count. */
  lemma ChangeNeedsMatchingFlag(s: State, f: Flag)
    requires Consistent(s)
    ensures Step(s, f).phase != s.phase ==> f == Some(Step(s, f).phase)
    ensures f == None ==> Step(s, f).phase == s.phase && Step(s, f).count == s.count
  {
    AppendOccurrences(s.window, f, Some(Down));
    AppendOccurrences(s.window, f, Some(Up));
    NoConflictingMajorities(Append(s.window, f));
  }

  /** Consistency is kept along any run. */
  lemma {:induction false} RunConsistent(s: State, flags: seq<Flag>)
    requires Consistent(s)
    ensures Consistent(Run(s, flags))
    decreases |flags|
  {
    if flags != [] {
      StepConsistent(s, flags[0]);
      RunConsistent(Step(s, flags[0]), flags[1..]);
    }
  }

  /** Along a run from a consistent state, the count never decreases and
      rises by at most the number of up flags observed. */
  lemma {:induction false} RunCountBounds(s: State, flags: seq<Flag>)
    requires Consistent(s)
    ensures s.count <= Run(s, flags).count <= s.count + Occurrences(flags, Some(Up))
    decreases |flags|
  {
    if flags != [] {
      CountStep(s, flags[0]);
      ChangeNeedsMatchingFlag(s, flags[0]);
      StepConsistent(s, flags[0]);
      RunCountBounds(Step(s, flags[0]), flags[1..]);
    }
  }

  /** Observing only `None` flags, however many, leaves phase and count as they were. */
  lemma {:induction false} NoneRunKeepsPhaseAndCount(s: State, flags: seq<Flag>)
    requires Consistent(s)
    requires forall i :: 0 <= i < |flags| ==> flags[i] == None
    ensures Run(s, flags).phase == s.phase && Run(s, flags).count == s.count
    decreases |flags|
  {
    if flags != [] {
      ChangeNeedsMatchingFlag(s, None);
      StepConsistent(s, None);
      NoneRunKeepsPhaseAndCount(Step(s, None), flags[1..]);
    }
  }

  /** A session is the run of the flags of its detected frames: undetected
      frames leave no trace, not even in the window. */
  lemma {:induction false} SessionSkipsUndetected(s: State, mode: Mode, frames: seq<Option<Measures>>)
    ensures Session(s, mode, frames) == Run(s, DetectedFlags(mode, frames))
    decreases |frames|
  {
    if frames != [] {
      var rest := DetectedFlags(mode, frames[1..]);
      match frames[0]
      case None =>
        SessionSkipsUndetected(s, mode, frames[1..]);
      case Some(m) =>
        SessionSkipsUndetected(Step(s, FlagOf(mode, m)), mode, frames[1..]);
        assert ([FlagOf(mode, m)] + rest)[1..] == rest;
    }
  }

  /** Observing `a` then `b` is observing `a + b`. */
  lemma {:induction false} RunAppend(s: State, a: seq<Flag>, b: seq<Flag>)
    ensures Run(s, a + b) == Run(Run(s, a), b)
    decreases |a|
  {
    if a != [] {
      assert (a + b)[1..] == a[1..] + b;
      RunAppend(Step(s, a[0]), a[1..], b);
    } else {
      assert a + b == b;
    }
  }

  /** `n` copies of `x`. */
  function Repeat<T>(x: T, n: nat): (r: seq<T>)
    ensures |r| == n && forall i :: 0 <= i < n ==> r[i] == x
  {
    if n == 0 then [] else [x] + Repeat(x, n - 1)
  }

  function Min(a: nat, b: nat): nat
  {
    if a < b then a else b
  }

  /** The last `k` entries of `w` are all `f`. */
  predicate EndsWith(w: seq<Flag>, f: Flag, k: nat)
  {
    k <= |w| && forall i :: |w| - k <= i < |w| ==> w[i] == f
  }

  lemma {:induction false} OccurrencesOfRepeat(x: Flag, n: nat, f: Flag)
    ensures Occurrences(Repeat(x, n), f) == if x == f then n else 0
    decreases n
  {
    if n > 0 {
      assert Repeat(x, n)[1..] == Repeat(x, n - 1);
      OccurrencesOfRepeat(x, n - 1, f);
    }
  }

  lemma {:induction false} EndsWithOccurrences(w: seq<Flag>, f: Flag, k: nat)
    requires EndsWith(w, f, k)
    ensures Occurrences(w, f) >= k
    decreases |w|
  {
    if w != [] {
      if k == |w| {
        EndsWithOccurrences(w[1..], f, k - 1);
      } else {
        EndsWithOccurrences(w[1..], f, k);
      }
    }
  }

  /** Appending `f` lengthens a tail of `f`s by one, up to the capacity. */
  lemma AppendEndsWith(w: seq<Flag>, f: Flag, k: nat)
    requires EndsWith(w, f, k) && k <= Capacity
    ensures EndsWith(Append(w, f), f, Min(k + 1, Capacity))
  {
  }

  /** A run of `n` flags all of phase `p` keeps the counter consistent,
      lengthens the window's tail of `p` flags, never leaves `p` once there,
      and reaches `p` once the window ends with `SampleOk` of them. */
  lemma {:induction false} SameFlagRunPhase(s: State, p: Phase, n: nat, j: nat)
    requires Consistent(s) && j <= Capacity && EndsWith(s.window, Some(p), j)
    ensures Consistent(Run(s, Repeat(Some(p), n)))
    ensures EndsWith(Run(s, Repeat(Some(p), n)).window, Some(p), Min(j + n, Capacity))
    ensures s.phase == p ==> Run(s, Repeat(Some(p), n)).phase == p
    ensures j + n >= SampleOk ==> Run(s, Repeat(Some(p), n)).phase == p
    decreases n
  {
    var f := Some(p);
    if n == 0 {
      EndsWithOccurrences(s.window, f, j);
    } else {
      var next := Step(s, f);
      assert Repeat(f, n)[1..] == Repeat(f, n - 1);
      assert Run(s, Repeat(f, n)) == Run(next, Repeat(f, n - 1));
      StepConsistent(s, f);
      ChangeNeedsMatchingFlag(s, f);
      AppendEndsWith(s.window, f, j);
      SameFlagRunPhase(next, p, n - 1, Min(j + 1, Capacity));
    }
  }

  /** A run of `n` flags all of phase `p`: the counter never leaves `p` once
      there, reaches `p` once the window ends with `SampleOk` of them, and
      counts one repetition exactly when it goes from down to up. */
  lemma {:induction false} SameFlagRun(s: State, p: Phase, n: nat, j: nat)
    requires Consistent(s) && j <= Capacity && EndsWith(s.window, Some(p), j)
    ensures var t := Run(s, Repeat(Some(p), n));
      && Consistent(t)
      && EndsWith(t.window, Some(p), Min(j + n, Capacity))
      && (s.phase == p ==> t.phase == p)
      && (j + n >= SampleOk ==> t.phase == p)
      && t.count == s.count + (if s.phase == Down && t.phase == Up then 1 else 0)
    decreases n
  {
    SameFlagRunPhase(s, p, n, j);
    var f := Some(p);
    if n > 0 {
      var next := Step(s, f);
      assert Repeat(f, n)[1..] == Repeat(f, n - 1);
      assert Run(s, Repeat(f, n)) == Run(next, Repeat(f, n - 1));
      StepConsistent(s, f);
      ChangeNeedsMatchingFlag(s, f);
      AppendEndsWith(s.window, f, j);
      SameFlagRun(next, p, n - 1, Min(j + 1, Capacity));
    }
  }

  /** Fewer than `SampleOk` flags of the opposite phase, counting those
      already in the window, never change the phase or the count. */
  lemma {:induction false} FewOpposingFlags(s: State, flags: seq<Flag>, q: Phase)
    requires Consistent(s) && q != s.phase
    requires Occurrences(s.window, Some(q)) + Occurrences(flags, Some(q)) < SampleOk
    ensures Run(s, flags).phase == s.phase && Run(s, flags).count == s.count
    decreases |flags|
  {
    if flags != [] {
      var next := Step(s, flags[0]);
      AppendOccurrences(s.window, flags[0], Some(q));
      if s.phase == Up {
        FromUp(s, flags[0]);
      } else {
        FromDown(s, flags[0]);
      }
      StepConsistent(s, flags[0]);
      FewOpposingFlags(next, flags[1..], q);
    }
  }

  lemma {:induction false} DetectedFlagsAppend(mode: Mode, a: seq<Option<Measures>>, b: seq<Option<Measures>>)
    ensures DetectedFlags(mode, a + b) == DetectedFlags(mode, a) + DetectedFlags(mode, b)
    decreases |a|
  {
    if a == [] {
      assert a + b == b;
    } else {
      assert (a + b)[1..] == a[1..] + b;
      DetectedFlagsAppend(mode, a[1..], b);
    }
  }

  lemma {:induction false} DetectedFlagsRepeat(mode: Mode, m: Measures, n: nat)
    ensures DetectedFlags(mode, Repeat(Some(m), n)) == Repeat(FlagOf(mode, m), n)
    decreases n
  {
    if n > 0 {
      assert Repeat(Some(m), n)[1..] == Repeat(Some(m), n - 1);
      DetectedFlagsRepeat(mode, m, n - 1);
    }
  }

  /** Extending a session by one frame processes that frame last. */
  lemma {:induction false} SessionSnoc(s: State, mode: Mode, frames: seq<Option<Measures>>, x: Option<Measures>)
    ensures Session(s, mode, frames + [x]) == Frame(Session(s, mode, frames), mode, x)
    decreases |frames|
  {
    if frames == [] {
      assert [] + [x] == [x] && [x][1..] == [];
    } else {
      assert (frames + [x])[1..] == frames[1..] + [x];
      SessionSnoc(Frame(s, mode, frames[0]), mode, frames[1..], x);
    }
  }

  /** The imperative counter: the deque and the two globals of d6.py:23-25. */
  class Counter {
    var window: Window
    var phase: Phase
    var count: nat

    /** The counter's state as a value. */
    ghost function Model(): State
      reads this, window
    {
      State(window.Contents, phase, count)
    }

    ghost predicate Valid()
      reads this, window, window.data
    {
      window.Valid() && Consistent(Model())
    }

    /** Count 0, phase up, empty window. */
    constructor ()
      ensures Valid() && fresh(window) && fresh(window.data)
      ensures Model() == Initial
    {
      window := new Window();
      phase := Up;
      count := 0;
    }

    /** Observe one frame's flag (d6.py:97-106). */
    method Observe(f: Flag)
      requires Valid()
      modifies this, window, window.data
      ensures Valid() && window == old(window) && window.data == old(window.data)
      ensures Model() == Step(old(Model()), f)
      ensures count == old(count) || (old(phase) == Down && phase == Up && count == old(count) + 1)
    {
      ghost var before := Model();
      ghost var after := Step(before, f);
      StepConsistent(before, f);
      window.Push(f);
      assert window.Contents == after.window;
      var downs := window.CountOf(Some(Down));
      if downs >= SampleOk && phase == Up {
        phase := Down;
      }
      var ups := window.CountOf(Some(Up));
      if ups >= SampleOk && phase == Down {
        phase := Up;
        count := count + 1;
      }
      assert phase == after.phase && count == after.count;
    }

    /** Process one frame of the capture loop in the given mode (d6.py:51-106). */
    method ProcessFrame(mode: Mode, detected: Option<Measures>)
      requires Valid()
      modifies this, window, window.data
      ensures Valid() && window == old(window) && window.data == old(window.data)
      ensures Model() == Frame(old(Model()), mode, detected)
      ensures detected == None ==> Model() == old(Model())
    {
      match detected
      case None =>
      case Some(m) =>
        Observe(FlagOf(mode, m));
    }
  }

  /** The capture loop of d6.py:41-106 run over a finite sequence of frames in
      one mode: a fresh counter processes every frame in order. */
  method CountReps(mode: Mode, frames: seq<Option<Measures>>) returns (count: nat, phase: Phase)
    ensures count == Session(Initial, mode, frames).count
    ensures phase == Session(Initial, mode, frames).phase
    ensures count <= Occurrences(DetectedFlags(mode, frames), Some(Up))
  {
    var counter := new Counter();
    var i := 0;
    while i < |frames|
      invariant i <= |frames|
      invariant fresh(counter) && fresh(counter.window) && fresh(counter.window.data)
      invariant counter.Valid()
      invariant counter.Model() == Session(Initial, mode, frames[..i])
    {
      counter.ProcessFrame(mode, frames[i]);
      SessionSnoc(Initial, mode, frames[..i], frames[i]);
      assert frames[..i + 1] == frames[..i] + [frames[i]];
      i := i + 1;
    }
    assert frames[..i] == frames;
    count, phase := counter.count, counter.phase;
    SessionSkipsUndetected(Initial, mode, frames);
    RunCountBounds(Initial, DetectedFlags(mode, frames));
  }

}
