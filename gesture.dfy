/** The static hand-gesture classifier of job-4-praktik-d5.py: an ordered
    decision list over fingertip-to-wrist distances. The rules are tried in the
    order OK, THUMBS_UP, ROCK, PAPER, SCISSORS; the first that fires gives the
    label, and UNKNOWN is the fallback.

    The Euclidean distance is a parameter `dist`: its numeric internals are not
    modelled, and no property below depends on them. */
module Gesture {

  /** A landmark position in pixels; y grows downwards. */
  datatype Point = Point(x: real, y: real)

  /** The six landmarks of a 21-point hand the classifier reads: 0 (wrist),
      4 (thumb tip), 8 (index tip), 12 (middle tip), 16 (ring tip), 20 (pinky tip). */
  datatype Hand = Hand(wrist: Point, thumbTip: Point, indexTip: Point,
                       middleTip: Point, ringTip: Point, pinkyTip: Point)

  datatype Label = Ok | ThumbsUp | Rock | Paper | Scissors | Unknown

  /** A distance between two points. */
  type Metric = (Point, Point) -> real

  const OkTouch: real := 35.0
  const ThumbRise: real := 40.0
  const ThumbReach: real := 0.8
  const FistMean: real := 120.0
  const OpenMean: real := 200.0
  const Extended: real := 180.0
  const Folded: real := 160.0

  /** Mean distance of the five fingertips to the wrist (`r_mean`). */
  function MeanReach(h: Hand, dist: Metric): (m: real)
    ensures var sum := dist(h.indexTip, h.wrist) + dist(h.middleTip, h.wrist)
                       + dist(h.ringTip, h.wrist) + dist(h.pinkyTip, h.wrist)
                       + dist(h.thumbTip, h.wrist);
      m * 5.0 == sum
  {
    (dist(h.indexTip, h.wrist) + dist(h.middleTip, h.wrist) + dist(h.ringTip, h.wrist)
     + dist(h.pinkyTip, h.wrist) + dist(h.thumbTip, h.wrist)) / 5.0
  }

  /** The condition of each rule; `Unknown` always fires. */
  predicate Fires(l: Label, h: Hand, dist: Metric)
  {
    match l
    case Ok => dist(h.thumbTip, h.indexTip) < OkTouch
    case ThumbsUp =>
      h.thumbTip.y < h.wrist.y - ThumbRise
      && dist(h.thumbTip, h.wrist) > ThumbReach * dist(h.indexTip, h.wrist)
    case Rock => MeanReach(h, dist) < FistMean
    case Paper => MeanReach(h, dist) > OpenMean
    case Scissors =>
      dist(h.indexTip, h.wrist) > Extended && dist(h.middleTip, h.wrist) > Extended
      && dist(h.ringTip, h.wrist) < Folded && dist(h.pinkyTip, h.wrist) < Folded
    case Unknown => true
  }

  /** Position of a rule in the decision list. */
  function Rank(l: Label): nat
  {
    match l
    case Ok => 0
    case ThumbsUp => 1
    case Rock => 2
    case Paper => 3
    case Scissors => 4
    case Unknown => 5
  }

  /** `classify_gesture`: the label of the first rule that fires. */
  function Classify(h: Hand, dist: Metric): (g: Label)
    ensures Fires(g, h, dist)
    ensures forall l :: Rank(l) < Rank(g) ==> !Fires(l, h, dist)
  {
    var reach := MeanReach(h, dist);
    if dist(h.thumbTip, h.indexTip) < OkTouch then Ok
    else if h.thumbTip.y < h.wrist.y - ThumbRise
            && dist(h.thumbTip, h.wrist) > ThumbReach * dist(h.indexTip, h.wrist) then ThumbsUp
    else if reach < FistMean then Rock
    else if reach > OpenMean then Paper
    else if dist(h.indexTip, h.wrist) > Extended && dist(h.middleTip, h.wrist) > Extended
            && dist(h.ringTip, h.wrist) < Folded && dist(h.pinkyTip, h.wrist) < Folded then Scissors
    else Unknown
  }

  /** The two properties of `Classify` pin the label down: no two labels are
      both the first rule to fire. */
  lemma FirstFiringIsUnique(h: Hand, dist: Metric, a: Label, b: Label)
    requires Fires(a, h, dist) && forall l :: Rank(l) < Rank(a) ==> !Fires(l, h, dist)
    requires Fires(b, h, dist) && forall l :: Rank(l) < Rank(b) ==> !Fires(l, h, dist)
    ensures a == b
  {
  }

  /** OK wins whenever the thumb and index tips touch, whatever the other distances. */
  lemma OkFirst(h: Hand, dist: Metric)
    ensures Classify(h, dist) == Ok <==> dist(h.thumbTip, h.indexTip) < 35.0
  {
  }

  /** THUMBS_UP exactly when OK does not fire, the thumb tip is more than 40
      pixels above the wrist, and it reaches further than 0.8 of the index tip. */
  lemma ThumbsUpOnlyIf(h: Hand, dist: Metric)
    ensures Classify(h, dist) == ThumbsUp <==>
      && !(dist(h.thumbTip, h.indexTip) < 35.0)
      && h.thumbTip.y < h.wrist.y - 40.0
      && dist(h.thumbTip, h.wrist) > 0.8 * dist(h.indexTip, h.wrist)
  {
  }

  /** ROCK and PAPER after the first two rules fail, decided by the mean
      reach; their conditions never hold together. */
  lemma RockOrPaper(h: Hand, dist: Metric)
    ensures !(Fires(Rock, h, dist) && Fires(Paper, h, dist))
    ensures Classify(h, dist) == Rock <==>
      !Fires(Ok, h, dist) && !Fires(ThumbsUp, h, dist) && MeanReach(h, dist) < 120.0
    ensures Classify(h, dist) == Paper <==>
      !Fires(Ok, h, dist) && !Fires(ThumbsUp, h, dist) && MeanReach(h, dist) > 200.0
  {
  }

  /** A hand whose five tips are all closer than 120 to the wrist is a fist,
      unless OK or THUMBS_UP fires first. */
  lemma ClosedHandIsRock(h: Hand, dist: Metric)
    requires !Fires(Ok, h, dist) && !Fires(ThumbsUp, h, dist)
    requires dist(h.indexTip, h.wrist) < 120.0 && dist(h.middleTip, h.wrist) < 120.0
    requires dist(h.ringTip, h.wrist) < 120.0 && dist(h.pinkyTip, h.wrist) < 120.0
    requires dist(h.thumbTip, h.wrist) < 120.0
    ensures Classify(h, dist) == Rock
  {
  }

  /** SCISSORS only when the earlier rules fail, index and middle tips are
      beyond 180 and ring and pinky tips within 160 of the wrist. */
  lemma ScissorsOnlyIf(h: Hand, dist: Metric)
    ensures Classify(h, dist) == Scissors <==>
      && !Fires(Ok, h, dist) && !Fires(ThumbsUp, h, dist)
      && !Fires(Rock, h, dist) && !Fires(Paper, h, dist)
      && dist(h.indexTip, h.wrist) > 180.0 && dist(h.middleTip, h.wrist) > 180.0
      && dist(h.ringTip, h.wrist) < 160.0 && dist(h.pinkyTip, h.wrist) < 160.0
  {
  }

  /** UNKNOWN exactly when none of the five rules fires. */
  lemma UnknownIsFallback(h: Hand, dist: Metric)
    ensures Classify(h, dist) == Unknown <==>
      forall l :: l != Unknown ==> !Fires(l, h, dist)
  {
  }

}
