/**
 * Capture-parameter derivation: the capability snapshot picks a frame rate and a
 * resolution, and a change of either re-derives the bit rate. The page's reactive
 * effects are written here as one explicit, dependency-ordered update.
 */
module Parameters {
  import opened Wrappers
  import opened Search
  import opened Tables

  /**
   * What the camera track reports: `frameRate.max` (a double), `width.max` and
   * `height.max` (unsigned integers); any of them may be absent.
   */
  datatype Capability = Capability(frameRateMax: Option<real>, widthMax: Option<nat>, heightMax: Option<nat>)

  /** The active selections; `None` is an unset selector. */
  datatype Selection = Selection(resolution: Option<Resolution>, frameRate: Option<FrameRate>, bitRate: Option<BitRate>)

  const UNSET: Selection := Selection(None, None, None)

  /** JavaScript truthiness of an optional count: present and non-zero. */
  predicate Truthy(n: Option<nat>) {
    n.Some? && n.value != 0
  }

  predicate TruthyReal(x: Option<real>) {
    x.Some? && x.value != 0.0
  }

  // ---------------------------------------------------------------- frame rate

  /** Frame-rate rule: an exact match of the reported maximum, else unset; no maximum keeps `current`. */
  function DeriveFrameRate(cap: Capability, current: Option<FrameRate>): (r: Option<FrameRate>)
    ensures !TruthyReal(cap.frameRateMax) ==> r == current
    ensures TruthyReal(cap.frameRateMax) ==>
      (r.Some? <==> cap.frameRateMax.value in {15.0, 24.0, 30.0, 60.0}) &&
      (r.Some? ==> r.value.Fps() as real == cap.frameRateMax.value)
  {
    if TruthyReal(cap.frameRateMax) then
      var max := cap.frameRateMax.value;
      var k := FindIndex(FRAME_RATES, (e: FrameRate) => e.Fps() as real == max);
      assert max == 15.0 ==> k == 0;
      assert max == 24.0 ==> FRAME_RATES[1].Fps() as real == max;
      assert max == 30.0 ==> FRAME_RATES[2].Fps() as real == max;
      assert max == 60.0 ==> FRAME_RATES[3].Fps() as real == max;
      Lookup(FRAME_RATES, k)
    else
      current
  }

  // ---------------------------------------------------------------- resolution

  predicate Fits(r: Resolution, maxWidth: nat, maxHeight: nat) {
    r.Width() <= maxWidth && r.Height() <= maxHeight
  }

  /**
   * Resolution rule: with both maxima reported (and non-zero), the first table entry
   * that fits, or unset when none fits; otherwise `current` is kept.
   */
  function DeriveResolution(cap: Capability, current: Option<Resolution>): (r: Option<Resolution>)
    ensures !(Truthy(cap.widthMax) && Truthy(cap.heightMax)) ==> r == current
    ensures Truthy(cap.widthMax) && Truthy(cap.heightMax) ==>
      var w, h := cap.widthMax.value, cap.heightMax.value;
      (r.Some? ==> Fits(r.value, w, h) &&
                   forall i :: 0 <= i < ResolutionRank(r.value) ==> !Fits(RESOLUTIONS[i], w, h)) &&
      (r.None? ==> forall res: Resolution :: !Fits(res, w, h))
  {
    if Truthy(cap.widthMax) && Truthy(cap.heightMax) then
      var w, h := cap.widthMax.value, cap.heightMax.value;
      var k := FindIndex(RESOLUTIONS, (e: Resolution) => Fits(e, w, h));
      assert k == -1 ==> forall res: Resolution :: !Fits(res, w, h) by {
        if k == -1 {
          forall res: Resolution ensures !Fits(res, w, h) {
            assert RESOLUTIONS[ResolutionRank(res)] == res;
          }
        }
      }
      Lookup(RESOLUTIONS, k)
    else
      current
  }

  /** The derived resolution is the largest that fits: no fitting entry is wider or taller. */
  lemma DerivedResolutionIsLargest(cap: Capability, current: Option<Resolution>, other: Resolution)
    requires Truthy(cap.widthMax) && Truthy(cap.heightMax)
    requires Fits(other, cap.widthMax.value, cap.heightMax.value)
    ensures DeriveResolution(cap, current).Some?
    ensures other.Width() <= DeriveResolution(cap, current).value.Width()
    ensures other.Height() <= DeriveResolution(cap, current).value.Height()
  {
    var r := DeriveResolution(cap, current).value;
    var i, j := ResolutionRank(r), ResolutionRank(other);
    // an entry ranked before the first fit does not fit, and `other` does
    assert i <= j;
    ResolutionsDescending(i, j);
  }

  // ---------------------------------------------------------------- bit rate

  /** Pixels per second of a resolution at a frame rate: width * height * fps. */
  function PixelRate(res: Resolution, fr: FrameRate): nat {
    res.Width() * res.Height() * fr.Fps()
  }

  /** `b <= pixelRate * COMPRESSION_RATIO`, in exact integer arithmetic. */
  predicate WithinBudget(b: BitRate, pixelRate: nat) {
    COMPRESSION_DEN * b.BitsPerSecond() <= COMPRESSION_NUM * pixelRate
  }

  /**
   * Bit-rate rule: the first (that is, largest) table value within the budget;
   * unset exactly when the budget is below the smallest value, 800.
   */
  function PickBitRate(pixelRate: nat): (r: Option<BitRate>)
    ensures r.Some? ==> WithinBudget(r.value, pixelRate)
    ensures r.Some? ==> forall b: BitRate :: WithinBudget(b, pixelRate) ==> b.BitsPerSecond() <= r.value.BitsPerSecond()
    ensures r.None? <==> COMPRESSION_DEN * 800 > COMPRESSION_NUM * pixelRate
  {
    var k := FindIndex(BIT_RATES, (e: BitRate) => WithinBudget(e, pixelRate));
    assert k != -1 ==> forall b: BitRate :: WithinBudget(b, pixelRate) ==> b.BitsPerSecond() <= BIT_RATES[k].BitsPerSecond() by {
      if k != -1 {
        forall b: BitRate | WithinBudget(b, pixelRate)
          ensures b.BitsPerSecond() <= BIT_RATES[k].BitsPerSecond()
        {
          var j := BitRateRank(b);
          assert k <= j;
          BitRatesDescending(k, j);
        }
      }
    }
    assert k == -1 <==> !WithinBudget(Bps800, pixelRate) by {
      if !WithinBudget(Bps800, pixelRate) {
        forall j | 0 <= j < |BIT_RATES| ensures !WithinBudget(BIT_RATES[j], pixelRate) {
          BitRatesDescending(j, 5);
        }
      } else {
        assert BIT_RATES[5] == Bps800;
      }
    }
    Lookup(BIT_RATES, k)
  }

  /** The bit rate is derived from the selected resolution and frame rate whenever both are set. */
  ghost predicate Consistent(s: Selection) {
    s.resolution.Some? && s.frameRate.Some? ==>
      s.bitRate == PickBitRate(PixelRate(s.resolution.value, s.frameRate.value))
  }

  /** The bit-rate effect body: re-derive when both resolution and frame rate are set. */
  function RederiveBitRate(s: Selection): (r: Selection)
    ensures r.resolution == s.resolution && r.frameRate == s.frameRate
    ensures s.resolution.None? || s.frameRate.None? ==> r.bitRate == s.bitRate
    ensures Consistent(r)
  {
    if s.resolution.Some? && s.frameRate.Some? then
      s.(bitRate := PickBitRate(PixelRate(s.resolution.value, s.frameRate.value)))
    else
      s
  }

  /** The bit-rate effect fires only when resolution or frame rate actually changed. */
  function BitRateEffect(before: Selection, after: Selection): (r: Selection)
    requires after.bitRate == before.bitRate
    ensures r.resolution == after.resolution && r.frameRate == after.frameRate
    ensures Consistent(before) ==> Consistent(r)
    ensures after.resolution == before.resolution && after.frameRate == before.frameRate ==> r == before
    ensures after.resolution.None? || after.frameRate.None? ==> r.bitRate == before.bitRate
    ensures (after.resolution != before.resolution || after.frameRate != before.frameRate) &&
            after.resolution.Some? && after.frameRate.Some? ==>
      r.bitRate == PickBitRate(PixelRate(after.resolution.value, after.frameRate.value))
  {
    if after.resolution != before.resolution || after.frameRate != before.frameRate then
      RederiveBitRate(after)
    else
      after
  }

  // ---------------------------------------------------------------- updates

  /**
   * A new capability snapshot: frame rate and resolution are derived independently,
   * then the bit rate follows them.
   */
  function ApplyCapability(s: Selection, cap: Capability): (r: Selection)
    ensures r.frameRate == DeriveFrameRate(cap, s.frameRate)
    ensures r.resolution == DeriveResolution(cap, s.resolution)
    ensures Consistent(s) ==> Consistent(r)
    ensures r.resolution == s.resolution && r.frameRate == s.frameRate ==> r == s
    ensures r.resolution.None? || r.frameRate.None? ==> r.bitRate == s.bitRate
    ensures (r.resolution != s.resolution || r.frameRate != s.frameRate) &&
            r.resolution.Some? && r.frameRate.Some? ==>
      r.bitRate == PickBitRate(PixelRate(r.resolution.value, r.frameRate.value))
  {
    BitRateEffect(s, s.(frameRate := DeriveFrameRate(cap, s.frameRate),
                        resolution := DeriveResolution(cap, s.resolution)))
  }

  /** The user picks a resolution; the frame rate stays and the bit rate follows. */
  function SelectResolution(s: Selection, res: Resolution): (r: Selection)
    ensures r.resolution == Some(res) && r.frameRate == s.frameRate
    ensures Consistent(s) ==> Consistent(r)
    ensures s.frameRate.Some? && s.resolution != Some(res) ==>
      r.bitRate == PickBitRate(PixelRate(res, s.frameRate.value))
    ensures s.resolution == Some(res) ==> r == s
    ensures s.frameRate.None? ==> r.bitRate == s.bitRate
  {
    BitRateEffect(s, s.(resolution := Some(res)))
  }

  /** The user picks a frame rate; the resolution stays and the bit rate follows. */
  function SelectFrameRate(s: Selection, fr: FrameRate): (r: Selection)
    ensures r.frameRate == Some(fr) && r.resolution == s.resolution
    ensures Consistent(s) ==> Consistent(r)
    ensures s.resolution.Some? && s.frameRate != Some(fr) ==>
      r.bitRate == PickBitRate(PixelRate(s.resolution.value, fr))
    ensures s.frameRate == Some(fr) ==> r == s
    ensures s.resolution.None? ==> r.bitRate == s.bitRate
  {
    BitRateEffect(s, s.(frameRate := Some(fr)))
  }

  /** The user picks a bit rate directly; nothing is re-derived. */
  function SelectBitRate(s: Selection, b: BitRate): (r: Selection)
    ensures r.bitRate == Some(b) && r.resolution == s.resolution && r.frameRate == s.frameRate
  {
    s.(bitRate := Some(b))
  }

  // ---------------------------------------------------------------- properties

  /** Every resolution/frame-rate pair of the tables has a budget of at least 800: the bit rate is never left unset. */
  lemma TableBitRateAlwaysSet(res: Resolution, fr: FrameRate)
    ensures PickBitRate(PixelRate(res, fr)).Some?
  {
    // the smallest budget, 640x480 at 15 fps, is far above 800
    assert PixelRate(res, fr) >= PixelRate(R640x480, Fps15) by {
      match res
      case R3840x2160 =>
      case R1920x1080 =>
      case R1280x720 =>
      case R640x480 =>
    }
  }

  /** In a consistent selection with resolution and frame rate set, the bit rate is set, within budget and the largest such. */
  lemma ConsistentBitRateBound(s: Selection)
    requires Consistent(s) && s.resolution.Some? && s.frameRate.Some?
    ensures s.bitRate.Some?
    ensures WithinBudget(s.bitRate.value, PixelRate(s.resolution.value, s.frameRate.value))
    ensures forall b: BitRate :: WithinBudget(b, PixelRate(s.resolution.value, s.frameRate.value)) ==>
      b.BitsPerSecond() <= s.bitRate.value.BitsPerSecond()
  {
    TableBitRateAlwaysSet(s.resolution.value, s.frameRate.value);
  }

  /** The worked examples: 1920x1080 at 30 fps gives 8000000; 640x480 at 15 fps gives 800000. */
  lemma BitRateExamples()
    ensures PickBitRate(PixelRate(R1920x1080, Fps30)) == Some(Bps8000000)
    ensures PickBitRate(PixelRate(R640x480, Fps15)) == Some(Bps800000)
  {
    assert PixelRate(R1920x1080, Fps30) == 62208000;
    assert WithinBudget(Bps8000000, 62208000);
    assert PixelRate(R640x480, Fps15) == 4608000;
    assert WithinBudget(Bps800000, 4608000);
  }

  /** A camera reporting 30 fps and 1280x720 yields 1280x720, 30 fps and 8000000 bps from an unset selection. */
  lemma Probe720pCamera()
    ensures ApplyCapability(UNSET, Capability(Some(30.0), Some(1280), Some(720)))
         == Selection(Some(R1280x720), Some(Fps30), Some(Bps8000000))
  {
    var cap := Capability(Some(30.0), Some(1280), Some(720));
    assert DeriveFrameRate(cap, None) == Some(Fps30);
    assert !Fits(R1920x1080, 1280, 720) && Fits(R1280x720, 1280, 720);
    assert DeriveResolution(cap, None) == Some(R1280x720);
    assert PixelRate(R1280x720, Fps30) == 27648000;
    assert WithinBudget(Bps8000000, 27648000) && !WithinBudget(Bps800000000, 27648000);
  }

  /**
   * A camera reporting 45 fps: the frame rate is cleared, so the bit rate is not
   * derived and stays unset, while the resolution is still 1280x720.
   */
  lemma Probe45FpsCamera()
    ensures ApplyCapability(UNSET, Capability(Some(45.0), Some(1280), Some(720)))
         == Selection(Some(R1280x720), None, None)
  {
    var cap := Capability(Some(45.0), Some(1280), Some(720));
    assert !Fits(R1920x1080, 1280, 720) && Fits(R1280x720, 1280, 720);
    assert DeriveResolution(cap, None) == Some(R1280x720);
  }

  /** A hand-picked bit rate can break consistency: the only update that can. */
  lemma BitRateOverrideBreaksConsistency()
    ensures Consistent(Selection(Some(R640x480), Some(Fps15), Some(Bps800000)))
    ensures !Consistent(SelectBitRate(Selection(Some(R640x480), Some(Fps15), Some(Bps800000)), Bps8000000000))
  {
    BitRateExamples();
  }
}
