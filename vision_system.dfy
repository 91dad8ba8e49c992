/**
 * The vision coordinator: the JeVois camera reports the target's sideways offset (x) and
 * forward distance (z) in inches; each goes into a capacity-5 ring buffer, and the robot
 * reads the median of each, or nothing until a sample has arrived.
 */
module Vision {
  import opened Wrappers
  import opened Units
  import opened RingBuffers

  const TARGET_BUFFER_SIZE := 5

  /** `d` is the Euclidean norm of (x, z): the non-negative root of x² + z². */
  ghost predicate IsNorm(d: real, x: real, z: real)
  {
    d >= 0.0 && d * d == x * x + z * z
  }

  /** What the platform's `hypot` promises. */
  ghost predicate IsHypot(hypot: (real, real) -> real)
  {
    forall x, z :: IsNorm(hypot(x, z), x, z)
  }

  class VisionSystem {
    const targetXs: RingBuffer
    const targetZs: RingBuffer

    ghost predicate Valid()
      reads this, targetXs, targetZs
    {
      && targetXs != targetZs
      && targetXs.Valid() && targetXs.size == TARGET_BUFFER_SIZE
      && targetZs.Valid() && targetZs.size == TARGET_BUFFER_SIZE
    }

    constructor ()
      ensures Valid() && fresh(targetXs) && fresh(targetZs)
      ensures targetXs.history == [] && targetZs.history == []
    {
      targetXs := new RingBuffer(TARGET_BUFFER_SIZE);
      targetZs := new RingBuffer(TARGET_BUFFER_SIZE);
    }

    /** The median offset read as inches; nothing while no sample is held. */
    function TargetX(): (r: Option<Length>)
      reads this, targetXs, targetZs
      requires Valid()
      ensures r.None? <==> targetXs.numElements == 0
      ensures r.Some? ==>
        forall t {:trigger Middle(t)} :: IsSorted(t) && multiset(t) == multiset(Window(targetXs.history, TARGET_BUFFER_SIZE)) && |t| > 0
          ==> InchesOf(r.value) == Middle(t)
    {
      if targetXs.numElements == 0 then None else Some(Inches(targetXs.Median()))
    }

    /** The median forward distance read as inches; nothing while no sample is held. */
    function TargetZ(): (r: Option<Length>)
      reads this, targetXs, targetZs
      requires Valid()
      ensures r.None? <==> targetZs.numElements == 0
      ensures r.Some? ==>
        forall t {:trigger Middle(t)} :: IsSorted(t) && multiset(t) == multiset(Window(targetZs.history, TARGET_BUFFER_SIZE)) && |t| > 0
          ==> InchesOf(r.value) == Middle(t)
    {
      if targetZs.numElements == 0 then None else Some(Inches(targetZs.Median()))
    }

    /**
     * The straight-line distance to the target, from the two medians in metres; nothing when
     * either is missing. `hypot` is the platform's norm, passed in.
     */
    function TargetDistance(hypot: (real, real) -> real): (r: Option<Length>)
      reads this, targetXs, targetZs
      requires Valid()
      requires IsHypot(hypot)
      ensures r.None? <==> TargetX().None? || TargetZ().None?
      ensures r.Some? ==> IsNorm(r.value.meters, TargetX().value.meters, TargetZ().value.meters)
    {
      var x, z := TargetX(), TargetZ();
      if x.None? || z.None? then None
      else
        Some(Length(hypot(x.value.meters, z.value.meters)))
    }

    /** A message from the camera: one sample goes into each buffer. */
    method ReceiveSample(targetX: real, targetZ: real)
      requires Valid()
      modifies targetXs, targetZs
      ensures Valid()
      ensures targetXs.history == old(targetXs.history) + [targetX]
      ensures targetZs.history == old(targetZs.history) + [targetZ]
    {
      targetXs.Add(targetX);
      targetZs.Add(targetZ);
    }

    /** The camera went away: both buffers are emptied. */
    method MarkUnplugged()
      requires Valid()
      modifies targetXs, targetZs
      ensures Valid()
      ensures targetXs.history == [] && targetZs.history == []
      ensures TargetX().None? && TargetZ().None?
    {
      targetXs.Clear();
      targetZs.Clear();
    }

    /** Two receivers whose last five samples agree report the same target. */
    lemma OnlyLastFiveSamplesCount(other: VisionSystem)
      requires Valid() && other.Valid()
      requires LastN(targetXs.history, TARGET_BUFFER_SIZE) == LastN(other.targetXs.history, TARGET_BUFFER_SIZE)
      requires LastN(targetZs.history, TARGET_BUFFER_SIZE) == LastN(other.targetZs.history, TARGET_BUFFER_SIZE)
      ensures TargetX() == other.TargetX() && TargetZ() == other.TargetZ()
    {
      WindowKeepsLastN(targetXs.history, other.targetXs.history, TARGET_BUFFER_SIZE);
      WindowKeepsLastN(targetZs.history, other.targetZs.history, TARGET_BUFFER_SIZE);
      if targetXs.numElements > 0 {
        var t := SortedCopy(targetXs.buffer);
        assert InchesOf(TargetX().value) == Middle(t) == InchesOf(other.TargetX().value);
      }
      if targetZs.numElements > 0 {
        var t := SortedCopy(targetZs.buffer);
        assert InchesOf(TargetZ().value) == Middle(t) == InchesOf(other.TargetZ().value);
      }
    }
  }
}
