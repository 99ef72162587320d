/**
 * The tracking-status text shown in the `trackingInfo` label: a classification of
 * the camera's tracking state, overridden by a "too dark" verdict when the frame's
 * ambient light estimate is below 100 lumens.
 */
module TrackingInfo {
  import opened Wrappers

  /** The reason ARKit gives for limited tracking. */
  datatype Reason = Initializing | ExcessiveMotion | InsufficientFeatures | Relocalizing

  /** The camera's tracking state. */
  datatype TrackingState = Normal | NotAvailable | Limited(reason: Reason)

  const ExcessiveMotionText := "Limited Tracking: Excessive Motion"
  const InsufficientDetailsText := "Limited Tracking: Insufficient Details"
  const LimitedText := "Limited Tracking"
  const GoodText := "Good tracking conditions"
  const TooDarkText := "Limited Tracking: Too Dark"

  /** Ambient intensities below this many lumens are too dark to track well. */
  const DarkThreshold: real := 100.0

  /** The text chosen by the nested switch on the tracking state; each text names exactly one case. */
  function StateText(t: TrackingState): (r: string)
    ensures r == ExcessiveMotionText <==> t == Limited(ExcessiveMotion)
    ensures r == InsufficientDetailsText <==> t == Limited(InsufficientFeatures)
    ensures r == LimitedText <==> t.Limited? && t.reason != ExcessiveMotion && t.reason != InsufficientFeatures
    ensures r == GoodText <==> !t.Limited?
    ensures r != TooDarkText
  {
    match t
    case Limited(ExcessiveMotion) => ExcessiveMotionText
    case Limited(InsufficientFeatures) => InsufficientDetailsText
    case Limited(_) => LimitedText
    case _ => GoodText
  }

  /** True when a light estimate is present and under the threshold. */
  predicate TooDark(ambientIntensity: Option<real>)
  {
    ambientIntensity.Some? && ambientIntensity.value < DarkThreshold
  }

  /**
   * The final text of one tracking-info update: the state's text, unless the light
   * estimate is present and too dark, which overrides every tracking state.
   */
  function StatusText(t: TrackingState, ambientIntensity: Option<real>): (r: string)
    ensures TooDark(ambientIntensity) ==> r == TooDarkText
    ensures !TooDark(ambientIntensity) ==> r == StateText(t)
    ensures r == TooDarkText <==> TooDark(ambientIntensity)
    ensures r in {ExcessiveMotionText, InsufficientDetailsText, LimitedText, GoodText, TooDarkText}
  {
    var text := StateText(t);
    match ambientIntensity
    case None => text
    case Some(lumens) => if lumens < DarkThreshold then TooDarkText else text
  }

  /** The status matrix: sample inputs and their texts. */
  lemma StatusMatrix()
    ensures StatusText(Normal, Some(500.0)) == GoodText
    ensures StatusText(Limited(ExcessiveMotion), Some(500.0)) == ExcessiveMotionText
    ensures StatusText(Normal, Some(50.0)) == TooDarkText
    ensures StatusText(Limited(InsufficientFeatures), None) == InsufficientDetailsText
    ensures StatusText(Limited(Relocalizing), Some(100.0)) == LimitedText
    ensures StatusText(NotAvailable, None) == GoodText
  {
  }
}
