/**
 * `apply_volume_gain`: multiply every sample by the volume factor and
 * hard-clip the product to the full-scale range [-1.0, 1.0]. Samples are
 * reals; float32 rounding is not modelled.
 */
module VolumeGain {

  const UNITY: real := 1.0

  function Abs(x: real): real {
    if x < 0.0 then -x else x
  }

  /** `np.clip(x, -1.0, 1.0)`: a value inside the range is kept, one outside is moved onto it. */
  function Clip(x: real): (r: real)
    ensures -1.0 <= r <= 1.0
    ensures -1.0 <= x <= 1.0 ==> r == x
  {
    if x < -1.0 then -1.0 else if 1.0 < x then 1.0 else x
  }

  /** Clipping picks the point of [-1.0, 1.0] nearest to `x`. */
  lemma ClipIsNearest(x: real, y: real)
    requires -1.0 <= y <= 1.0
    ensures Abs(Clip(x) - x) <= Abs(y - x)
  {
  }

  /** Clipping never reverses the order of two values. */
  lemma ClipMonotone(x: real, y: real)
    requires x <= y
    ensures Clip(x) <= Clip(y)
  {
  }

  /** One sample after the gain: the product with `volume`, clipped. */
  function Gained(x: real, volume: real): (r: real)
    ensures -1.0 <= r <= 1.0
  {
    Clip(x * volume)
  }

  /** Every sample scaled by `volume` and clipped, one for one. */
  function Scale(samples: seq<real>, volume: real): (r: seq<real>)
    ensures |r| == |samples|
    ensures forall i :: 0 <= i < |r| ==> r[i] == Gained(samples[i], volume)
  {
    if samples == [] then [] else [Gained(samples[0], volume)] + Scale(samples[1..], volume)
  }

  /**
   * `apply_volume_gain(samples, volume)`. At unity gain the samples come back
   * unchanged (not even clipped); at any other gain each output sample is the
   * clipped product of its input sample and lies in [-1.0, 1.0].
   */
  function ApplyVolumeGain(samples: seq<real>, volume: real): (r: seq<real>)
    ensures volume == UNITY ==> r == samples
    ensures volume != UNITY ==> |r| == |samples|
    ensures volume != UNITY ==> forall i :: 0 <= i < |r| ==> r[i] == Gained(samples[i], volume)
    ensures volume != UNITY ==> forall i :: 0 <= i < |r| ==> -1.0 <= r[i] <= 1.0
  {
    if volume == UNITY then samples else Scale(samples, volume)
  }

  /** The gain has no cross-sample state: processing two halves separately is processing the whole. */
  lemma GainIsPerSample(a: seq<real>, b: seq<real>, volume: real)
    ensures ApplyVolumeGain(a + b, volume) == ApplyVolumeGain(a, volume) + ApplyVolumeGain(b, volume)
  {
    if volume != UNITY {
      var whole := ApplyVolumeGain(a + b, volume);
      var parts := ApplyVolumeGain(a, volume) + ApplyVolumeGain(b, volume);
      forall i | 0 <= i < |whole|
        ensures whole[i] == parts[i]
      {
        if i < |a| {
          assert (a + b)[i] == a[i];
        } else {
          assert (a + b)[i] == b[i - |a|];
        }
      }
    }
  }

  /** With a non-negative volume, a louder input sample never becomes a quieter output sample. */
  lemma GainPreservesOrder(samples: seq<real>, volume: real, i: int, j: int)
    requires 0.0 <= volume
    requires 0 <= i < |samples| && 0 <= j < |samples|
    requires samples[i] <= samples[j]
    ensures ApplyVolumeGain(samples, volume)[i] <= ApplyVolumeGain(samples, volume)[j]
  {
    if volume != UNITY {
      assert samples[i] * volume <= samples[j] * volume by {
        assert (samples[j] - samples[i]) * volume >= 0.0;
      }
      ClipMonotone(samples[i] * volume, samples[j] * volume);
    }
  }

  /** An attenuating gain on in-range samples never clips: each output is the exact product. */
  lemma AttenuationNeverClips(samples: seq<real>, volume: real)
    requires 0.0 <= volume <= 1.0
    requires forall i :: 0 <= i < |samples| ==> -1.0 <= samples[i] <= 1.0
    ensures |ApplyVolumeGain(samples, volume)| == |samples|
    ensures forall i :: 0 <= i < |samples| ==> ApplyVolumeGain(samples, volume)[i] == samples[i] * volume
  {
    var r := ApplyVolumeGain(samples, volume);
    forall i | 0 <= i < |samples|
      ensures r[i] == samples[i] * volume
    {
      if volume == UNITY {
        assert r[i] == samples[i];
      } else {
        ProductInRange(samples[i], volume);
        assert r[i] == Gained(samples[i], volume);
      }
    }
  }

  /** An attenuating gain keeps an in-range sample in range. */
  lemma ProductInRange(x: real, v: real)
    requires -1.0 <= x <= 1.0 && 0.0 <= v <= 1.0
    ensures -1.0 <= x * v <= 1.0
  {
    NonnegativeProduct(1.0 - x, v);
    NonnegativeProduct(x + 1.0, v);
    assert (1.0 - x) * v == v - x * v;
    assert (x + 1.0) * v == x * v + v;
  }

  lemma NonnegativeProduct(a: real, b: real)
    requires 0.0 <= a && 0.0 <= b
    ensures 0.0 <= a * b
  {
  }

  /** Unity gain does not clip: an out-of-range sample passes through, while any other gain would clip it. */
  lemma UnityGainSkipsClipping()
    ensures ApplyVolumeGain([2.0], UNITY) == [2.0]
    ensures ApplyVolumeGain([2.0], 1.5) == [1.0]
  {
  }
}
