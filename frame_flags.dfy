/** Per-frame classification of the exercise counter (job-4-praktik-d6.py).

    Each processed frame yields one reading: the mean knee angle in squat mode
    or the shoulder-wrist / shoulder-hip ratio in push-up mode. Two thresholds
    turn that reading into a flag: down below the lower one, up above the upper
    one, and no flag (`None`) in the band between them, boundaries included. */
module FrameFlags {

  import opened Options

  /** The two phases of a repetition; also the two values a frame flag can carry. */
  datatype Phase = Up | Down

  /** A frame's flag: `Some(Down)`, `Some(Up)`, or `None` inside the hysteresis band. */
  type Flag = Option<Phase>

  /** The exercise being counted; the key that toggles it is not modelled. */
  datatype Mode = Squat | Pushup

  /** What the external pose detector yields for one frame: the left and right
      knee angles in degrees and the push-up ratio. Only the one the mode needs
      is used. */
  datatype Measures = Measures(leftKnee: real, rightKnee: real, armRatio: real)

  const KneeDown: real := 80.0
  const KneeUp: real := 160.0
  const DownRatio: real := 0.85
  const UpRatio: real := 1.00

  /** Threshold classification of a reading: strictly below `down` is Down,
      otherwise strictly above `up` is Up, otherwise no flag. */
  function Classify(reading: real, down: real, up: real): (f: Flag)
    ensures f == Some(Down) <==> reading < down
    ensures f == Some(Up) <==> down <= reading && up < reading
    ensures f == None <==> down <= reading <= up
  {
    if reading < down then Some(Down)
    else if reading > up then Some(Up)
    else None
  }

  /** The squat reading: the mean of the two knee angles, which lies between them. */
  function KneeAngle(left: real, right: real): (a: real)
    ensures left <= right ==> left <= a <= right
    ensures right <= left ==> right <= a <= left
    ensures a - left == right - a
  {
    (left + right) / 2.0
  }

  /** The flag of one frame in which a person was detected: the mode picks
      the reading and its thresholds. */
  function FlagOf(mode: Mode, m: Measures): (f: Flag)
    ensures mode == Squat ==> var a := KneeAngle(m.leftKnee, m.rightKnee);
      && (f == Some(Down) <==> a < KneeDown)
      && (f == Some(Up) <==> a > KneeUp)
      && (f == None <==> KneeDown <= a <= KneeUp)
    ensures mode == Pushup ==>
      && (f == Some(Down) <==> m.armRatio < DownRatio)
      && (f == Some(Up) <==> m.armRatio > UpRatio)
      && (f == None <==> DownRatio <= m.armRatio <= UpRatio)
  {
    match mode
    case Squat => Classify(KneeAngle(m.leftKnee, m.rightKnee), KneeDown, KneeUp)
    case Pushup => Classify(m.armRatio, DownRatio, UpRatio)
  }

  /** Order of flags along the reading axis: Down, then no flag, then Up. */
  function Level(f: Flag): nat
  {
    match f
    case Some(Down) => 0
    case None => 1
    case Some(Up) => 2
  }

  /** With ordered thresholds, a larger reading never gets a lower flag. */
  lemma ClassifyMonotone(x: real, y: real, down: real, up: real)
    requires down <= up && x <= y
    ensures Level(Classify(x, down, up)) <= Level(Classify(y, down, up))
  {
  }

  /** Squat mode: Down iff the mean knee angle is below 80, Up iff above 160,
      no flag from 80 to 160 inclusive. */
  lemma SquatFlag(m: Measures)
    ensures var a := KneeAngle(m.leftKnee, m.rightKnee);
      && (FlagOf(Squat, m) == Some(Down) <==> a < 80.0)
      && (FlagOf(Squat, m) == Some(Up) <==> a > 160.0)
      && (FlagOf(Squat, m) == None <==> 80.0 <= a <= 160.0)
  {
  }

  /** Push-up mode: Down iff the ratio is below 0.85, Up iff above 1.00,
      no flag from 0.85 to 1.00 inclusive. */
  lemma PushupFlag(m: Measures)
    ensures && (FlagOf(Pushup, m) == Some(Down) <==> m.armRatio < 0.85)
            && (FlagOf(Pushup, m) == Some(Up) <==> m.armRatio > 1.0)
            && (FlagOf(Pushup, m) == None <==> 0.85 <= m.armRatio <= 1.0)
  {
  }

}
