/**
 * The wheel's spin engine: an Idle/Spinning state machine. `Spin` starts a spin
 * unless one is running; the host then calls `Tick` once per animation frame
 * until the spin completes and reports its prize.
 */
module WheelEngine {
  import opened Types
  import opened Outcome

  class Wheel {
    /** The wheel's mode and catalog, fixed for as long as it is shown. */
    const mode: SpinMode
    const prizes: seq<Prize>

    /** The cumulative rotation, in degrees, the wheel is drawn at. */
    var rotation: real
    /** True from an accepted spin request until the frame at which it completes. */
    var spinning: bool

    // The parameters of the most recent spin.
    var startTime: real
    var startRotation: real
    var duration: real
    var targetIndex: int
    var targetRotation: int

    /** How many spins were started, and how many reported their prize. */
    ghost var started: nat
    ghost var reported: nat

    ghost predicate Valid()
      reads this
    {
      && WholeHalfSegments(|prizes|)
      && started == reported + (if spinning then 1 else 0)
      && (started > 0 ==>
            && 0 <= targetIndex < |prizes|
            && duration >= 10000.0
            && PointerSegment(targetRotation, |prizes|) == targetIndex)
      && (!spinning && started > 0 ==> rotation == targetRotation as real)
      && (started == 0 ==> rotation == 0.0)
    }

    constructor (mode: SpinMode, prizes: seq<Prize>)
      requires WholeHalfSegments(|prizes|)
      ensures Valid()
      ensures this.mode == mode && this.prizes == prizes
      ensures rotation == 0.0 && !spinning && started == 0
    {
      this.mode := mode;
      this.prizes := prizes;
      rotation := 0.0;
      spinning := false;
      startTime, startRotation, duration := 0.0, 0.0, 0.0;
      targetIndex, targetRotation := 0, 0;
      started, reported := 0, 0;
    }

    /**
     * A spin request at clock time `now`, with the three random draws in the
     * order the source makes them: duration, winning segment, whole turns.
     */
    method Spin(now: real, r1: real, r2: real, r3: real)
      requires Valid()
      requires 0.0 <= r1 < 1.0 && 0.0 <= r2 < 1.0 && 0.0 <= r3 < 1.0
      modifies this`spinning, this`startTime, this`startRotation, this`duration,
               this`targetIndex, this`targetRotation, this`started
      ensures Valid()
      ensures old(spinning) ==>
        && spinning
        && startTime == old(startTime) && startRotation == old(startRotation)
        && duration == old(duration) && targetIndex == old(targetIndex)
        && targetRotation == old(targetRotation) && started == old(started)
      ensures !old(spinning) ==>
        && spinning
        && started == old(started) + 1
        && startTime == now
        && startRotation == rotation
        && duration == Duration(mode, r1)
        && targetIndex == TargetIndex(r2, |prizes|)
        && targetRotation == TargetRotation(FullSpins(mode, r3), targetIndex, |prizes|)
    {
      if spinning {
        return;
      }
      spinning := true;
      startTime := now;
      duration := Duration(mode, r1);
      targetIndex := TargetIndex(r2, |prizes|);
      var fullSpins := FullSpins(mode, r3);
      targetRotation := TargetRotation(fullSpins, targetIndex, |prizes|);
      startRotation := rotation;
      StopsOnTarget(fullSpins, targetIndex, |prizes|);
      started := started + 1;
    }

    /**
     * One animation frame at clock time `now`. Returns the prize when the
     * spin completes at this frame; otherwise another frame is wanted.
     */
    method Tick(now: real) returns (finished: Option<Prize>)
      requires Valid() && spinning
      modifies this`rotation, this`spinning, this`reported
      ensures Valid()
      ensures rotation == RotationAt(startRotation, targetRotation, Progress(now - startTime, duration))
      ensures finished.Some? <==> now - startTime >= duration
      ensures spinning <==> finished.None?
      ensures reported == old(reported) + (if finished.Some? then 1 else 0)
      ensures finished.Some? ==>
        && rotation == targetRotation as real
        && finished.value == prizes[targetIndex]
        && finished.value == prizes[PointerSegment(targetRotation, |prizes|)]
    {
      var progress := Progress(now - startTime, duration);
      rotation := RotationAt(startRotation, targetRotation, progress);
      if progress < 1.0 {
        finished := None;
      } else {
        RotationBetween(startRotation, targetRotation, progress);
        spinning := false;
        reported := reported + 1;
        finished := Some(prizes[targetIndex]);
      }
    }
  }

  /**
   * Two requests, one completion: a request made while the wheel turns is
   * ignored, and the first spin still completes once, on its own target.
   */
  method RepeatedRequestScenario(r1: real, r2: real, r3: real, s1: real, s2: real, s3: real)
    returns (early: Option<Prize>, last: Option<Prize>, stop: real)
    requires 0.0 <= r1 < 1.0 && 0.0 <= r2 < 1.0 && 0.0 <= r3 < 1.0
    requires 0.0 <= s1 < 1.0 && 0.0 <= s2 < 1.0 && 0.0 <= s3 < 1.0
    ensures early.None?
    ensures last.Some? && last.value.id == TargetIndex(r2, 4)
    ensures stop == TargetRotation(FullSpins(REGULER, r3), TargetIndex(r2, 4), 4) as real
  {
    var prizes := [Prize(0, "A", "", ""), Prize(1, "B", "", ""), Prize(2, "C", "", ""), Prize(3, "D", "", "")];
    var w := new Wheel(REGULER, prizes);
    w.Spin(0.0, r1, r2, r3);
    var target := w.targetRotation;
    early := w.Tick(500.0);
    assert early.None?;
    w.Spin(600.0, s1, s2, s3);
    assert w.targetRotation == target && w.startTime == 0.0;
    last := w.Tick(20000.0);
    assert last == Some(prizes[TargetIndex(r2, 4)]);
    assert !w.spinning && w.rotation == target as real && w.reported == w.started == 1;
    stop := w.rotation;
  }
}
