/** Worked runs of the exercise counter: a run of too few downs, a debounce
    run that goes down and back up, and a 12-frame squat session. */
module Scenarios {

  import opened Options
  import opened FrameFlags
  import opened RepCounter

  /** Three downs from the initial state do not change the phase. */
  lemma TooFewDowns()
    ensures Run(Initial, Repeat(Some(Down), 3)).phase == Up
    ensures Run(Initial, Repeat(Some(Down), 3)).count == 0
  {
    OccurrencesOfRepeat(Some(Down), 3, Some(Down));
    FewOpposingFlags(Initial, Repeat(Some(Down), 3), Down);
  }

  /** Four downs then two in-band flags, from the initial state, switch the
      phase to down with the count at 0; four ups after that switch it back up
      and count one repetition; two more downs leave the count at one. */
  lemma DebounceScenario()
    ensures var first := Repeat(Some(Down), 4) + Repeat(None, 2);
      Run(Initial, first).phase == Down && Run(Initial, first).count == 0
    ensures var upsSeen := Repeat(Some(Down), 4) + Repeat(None, 2) + Repeat(Some(Up), 4);
      Run(Initial, upsSeen).phase == Up && Run(Initial, upsSeen).count == 1
    ensures var all := Repeat(Some(Down), 4) + Repeat(None, 2) + Repeat(Some(Up), 4) + Repeat(Some(Down), 2);
      Run(Initial, all).count == 1
  {
    var downs, nones := Repeat(Some(Down), 4), Repeat(None, 2);
    var ups, tail := Repeat(Some(Up), 4), Repeat(Some(Down), 2);
    SameFlagRun(Initial, Down, 4, 0);
    var s1 := Run(Initial, downs);
    NoneRunKeepsPhaseAndCount(s1, nones);
    RunConsistent(s1, nones);
    RunAppend(Initial, downs, nones);
    var s2 := Run(s1, nones);
    SameFlagRun(s2, Up, 4, 0);
    RunAppend(Initial, downs + nones, ups);
    var s3 := Run(s2, ups);
    SameFlagRun(s3, Down, 2, 0);
    RunAppend(Initial, downs + nones + ups, tail);
  }

  /** A detected frame whose two knee angles are both `angle`. */
  function Knees(angle: real): Option<Measures>
  {
    Some(Measures(angle, angle, 0.0))
  }

  /** Knee angles 170 x4, 70 x4, 170 x4, both knees alike. */
  const SquatSession: seq<Option<Measures>> :=
    Repeat(Knees(170.0), 4) + Repeat(Knees(70.0), 4) + Repeat(Knees(170.0), 4)

  /** The squat session's frames flag up, down, up, four each. */
  lemma SquatSessionFlags()
    ensures DetectedFlags(Squat, SquatSession)
      == Repeat(Some(Up), 4) + Repeat(Some(Down), 4) + Repeat(Some(Up), 4)
  {
    var straight, bent := Measures(170.0, 170.0, 0.0), Measures(70.0, 70.0, 0.0);
    assert FlagOf(Squat, straight) == Some(Up);
    assert FlagOf(Squat, bent) == Some(Down);
    DetectedFlagsRepeat(Squat, straight, 4);
    DetectedFlagsRepeat(Squat, bent, 4);
    DetectedFlagsAppend(Squat, Repeat(Knees(170.0), 4), Repeat(Knees(70.0), 4));
    DetectedFlagsAppend(Squat, Repeat(Knees(170.0), 4) + Repeat(Knees(70.0), 4), Repeat(Knees(170.0), 4));
  }

  /** `a` ups, then `b` downs, then `c` ups, at least `SampleOk` of each,
      from the initial state: one repetition, ending in phase up. */
  lemma UpDownUp(a: nat, b: nat, c: nat)
    requires a >= SampleOk && b >= SampleOk && c >= SampleOk
    ensures var r := Run(Initial, Repeat(Some(Up), a) + Repeat(Some(Down), b) + Repeat(Some(Up), c));
      r.phase == Up && r.count == 1
  {
    var ups, downs, ups2 := Repeat(Some(Up), a), Repeat(Some(Down), b), Repeat(Some(Up), c);
    var s1 := Run(Initial, ups);
    assert Consistent(s1) && s1.phase == Up && s1.count == 0 by {
      SameFlagRun(Initial, Up, a, 0);
    }
    var s2 := Run(s1, downs);
    assert Consistent(s2) && s2.phase == Down && s2.count == 0 by {
      SameFlagRun(s1, Down, b, 0);
    }
    var s3 := Run(s2, ups2);
    assert s3.phase == Up && s3.count == 1 by {
      SameFlagRun(s2, Up, c, 0);
    }
    RunAppend(Initial, ups, downs);
    RunAppend(Initial, ups + downs, ups2);
  }

  /** The squat session counts one repetition and ends in phase up. */
  lemma SquatScenario()
    ensures Session(Initial, Squat, SquatSession).count == 1
    ensures Session(Initial, Squat, SquatSession).phase == Up
  {
    SquatSessionFlags();
    SessionSkipsUndetected(Initial, Squat, SquatSession);
    UpDownUp(4, 4, 4);
  }

}
