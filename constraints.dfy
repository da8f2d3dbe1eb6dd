/**
 * The video constraints the page hands to the camera when it asks for a recording
 * stream. Dimensions come from the selected resolution, rotated for a portrait
 * capture; the frame-rate entry follows the page's own (inverted) condition.
 */
module Constraints {
  import opened Wrappers
  import opened Tables

  /** A JavaScript number as it arises here: `Number(undefined)` is NaN, every table value is an integer. */
  datatype JsNumber = NaN | Finite(value: nat)

  /** `Number(x)` of an optional table value. */
  function NumberOf(x: Option<nat>): (n: JsNumber)
    ensures n.Finite? <==> x.Some?
    ensures n.Finite? ==> n.value == x.value
  {
    match x
    case None => NaN
    case Some(v) => Finite(v)
  }

  /** `{ width, height, facingMode, frameRate }`; an absent `frameRate` key is `None`. */
  datatype VideoConstraints = VideoConstraints(width: JsNumber, height: JsNumber, facingMode: string, frameRate: Option<JsNumber>)

  const FACING_MODE: string := "environment"

  function WidthOf(res: Option<Resolution>): Option<nat> {
    if res.Some? then Some(res.value.Width()) else None
  }

  function HeightOf(res: Option<Resolution>): Option<nat> {
    if res.Some? then Some(res.value.Height()) else None
  }

  function FpsOf(fr: Option<FrameRate>): Option<nat> {
    if fr.Some? then Some(fr.value.Fps()) else None
  }

  /** The constraints exactly as the page builds them, frame-rate condition included. */
  function BuildConstraints(res: Option<Resolution>, fr: Option<FrameRate>, isPortrait: bool): (c: VideoConstraints)
    ensures c.facingMode == FACING_MODE
    ensures res.None? ==> c.width == NaN && c.height == NaN
    ensures res.Some? && isPortrait ==>
      c.width == Finite(res.value.Height()) && c.height == Finite(res.value.Width())
    ensures res.Some? && !isPortrait ==>
      c.width == Finite(res.value.Width()) && c.height == Finite(res.value.Height())
    ensures c.frameRate.None? <==> fr.Some?
    ensures c.frameRate.Some? ==> c.frameRate.value == NaN
  {
    VideoConstraints(
      if isPortrait then NumberOf(HeightOf(res)) else NumberOf(WidthOf(res)),
      if isPortrait then NumberOf(WidthOf(res)) else NumberOf(HeightOf(res)),
      FACING_MODE,
      if fr.Some? then None else Some(NumberOf(FpsOf(fr))))
  }

  /** The evidently intended constraints: the selected frame rate is requested, none otherwise. */
  function IntendedConstraints(res: Option<Resolution>, fr: Option<FrameRate>, isPortrait: bool): (c: VideoConstraints)
    ensures c.width == BuildConstraints(res, fr, isPortrait).width
    ensures c.height == BuildConstraints(res, fr, isPortrait).height
    ensures c.facingMode == FACING_MODE
    ensures fr.Some? ==> c.frameRate == Some(Finite(fr.value.Fps()))
    ensures fr.None? ==> c.frameRate.None?
  {
    BuildConstraints(res, fr, isPortrait).(frameRate := if fr.Some? then Some(NumberOf(FpsOf(fr))) else None)
  }

  /**
   * As written, the page never asks for a concrete frame rate: a selected rate is
   * dropped and an unset one becomes NaN. The intended constraints would carry it.
   */
  lemma SelectedFrameRateNeverRequested(res: Option<Resolution>, fr: Option<FrameRate>, isPortrait: bool)
    ensures BuildConstraints(res, fr, isPortrait).frameRate != IntendedConstraints(res, fr, isPortrait).frameRate
    ensures forall n: nat :: BuildConstraints(res, fr, isPortrait).frameRate != Some(Finite(n))
  {
  }

  /** Portrait and landscape requests are each other's transpose. */
  lemma PortraitIsTransposed(res: Option<Resolution>, fr: Option<FrameRate>)
    ensures BuildConstraints(res, fr, true).width == BuildConstraints(res, fr, false).height
    ensures BuildConstraints(res, fr, true).height == BuildConstraints(res, fr, false).width
  {
  }
}
