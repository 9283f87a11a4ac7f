// The detection overlay (frontend/components/ai/detection-overlay.tsx):
// five indicators and a head-position label computed from the store's
// latest detection. Percentages and the head marker's position are display
// arithmetic and are not part of this model.

module DetectionOverlay {
  import opened Types
  import RiskPolicy
  import Store

  datatype Status = Ok | Warning | Danger

  function StatusRank(s: Status): nat {
    match s
    case Ok => 0
    case Warning => 1
    case Danger => 2
  }

  datatype Indicator = Indicator(name: string, detected: bool, status: Status)

  datatype HeadPosition = Forward | Turned

  datatype OverlayView = OverlayView(indicators: seq<Indicator>, head: HeadPosition)

  /** The 50/80 bands of the eyes and focus indicators. */
  function Band(score: real): (s: Status)
    ensures s == Ok <==> score < 50.0
    ensures s == Warning <==> 50.0 <= score < 80.0
    ensures s == Danger <==> score >= 80.0
  {
    if score < 50.0 then Ok else if score < 80.0 then Warning else Danger
  }

  /** A higher score never shows a milder band. */
  lemma BandMonotone(a: real, b: real)
    requires a <= b
    ensures StatusRank(Band(a)) <= StatusRank(Band(b))
  {
  }

  function FaceIndicator(d: Detection): (i: Indicator)
    ensures i.name == "Face"
    ensures i.detected == d.faceDetected
    ensures i.status == Ok <==> d.faceDetected
    ensures i.status != Danger
  {
    Indicator("Face", d.faceDetected, if d.faceDetected then Ok else Warning)
  }

  function EyesIndicator(d: Detection): (i: Indicator)
    ensures i.name == "Eyes"
    ensures i.status == Band(d.drowsinessScore)
    ensures i.detected <==> d.drowsinessScore < 50.0
    ensures i.detected <==> i.status == Ok
    ensures i.status == Danger <==> d.drowsinessScore >= 80.0
  {
    Indicator("Eyes", d.drowsinessScore < 50.0, Band(d.drowsinessScore))
  }

  function PhoneIndicator(d: Detection): (i: Indicator)
    ensures i.name == "Phone"
    ensures i.detected <==> !d.phoneUsageDetected
    ensures i.status == Danger <==> d.phoneUsageDetected
    ensures i.status != Warning
  {
    Indicator("Phone", !d.phoneUsageDetected, if d.phoneUsageDetected then Danger else Ok)
  }

  function FocusIndicator(d: Detection): (i: Indicator)
    ensures i.name == "Focus"
    ensures i.status == Band(d.distractionScore)
    ensures i.detected <==> d.distractionScore < 50.0
    ensures i.detected <==> i.status == Ok
    ensures i.status == Danger <==> d.distractionScore >= 80.0
  {
    Indicator("Focus", d.distractionScore < 50.0, Band(d.distractionScore))
  }

  function YawnIndicator(d: Detection): (i: Indicator)
    ensures i.name == "Yawn"
    ensures i.detected <==> !d.yawning
    ensures i.status == Warning <==> d.yawning
    ensures i.status != Danger
  {
    Indicator("Yawn", !d.yawning, if d.yawning then Warning else Ok)
  }

  function HeadPositionOf(d: Detection): (h: HeadPosition)
    ensures h == Forward <==> Abs(d.headPose.yaw) < 15.0
  {
    if Abs(d.headPose.yaw) < 15.0 then Forward else Turned
  }

  /** What the overlay shows for the store's state: nothing unless
      monitoring is on and a detection exists. */
  function Render(isMonitoring: bool, detection: Option<Detection>): (r: Option<OverlayView>)
    ensures r.Some? <==> isMonitoring && detection.Some?
    ensures r.Some? ==> |r.value.indicators| == 5
    ensures r.Some? ==> forall i :: 0 <= i < 5 ==>
      r.value.indicators[i].name == ["Face", "Eyes", "Phone", "Focus", "Yawn"][i]
    ensures r.Some? ==>
      var d := detection.value;
      && r.value.indicators == [FaceIndicator(d), EyesIndicator(d), PhoneIndicator(d), FocusIndicator(d), YawnIndicator(d)]
      && r.value.head == HeadPositionOf(d)
  {
    if !isMonitoring || detection.None? then None
    else
      var d := detection.value;
      Some(OverlayView([FaceIndicator(d), EyesIndicator(d), PhoneIndicator(d), FocusIndicator(d), YawnIndicator(d)],
                       HeadPositionOf(d)))
  }

  function RenderStore(s: Store.StoreState): Option<OverlayView> {
    Render(s.isMonitoring, s.currentDetection)
  }

  /** Ending a trip takes the overlay down, since monitoring goes off. */
  lemma HiddenAfterTripEnds(s: Store.StoreState, endTime: nat)
    requires s.currentTrip.Some?
    ensures RenderStore(Store.EndTripState(s, endTime)).None?
  {
  }

  // ---------------------------------------------------------------------
  // How the indicators line up with the risk score and the alerts

  /** A frame that attempts a drowsiness (distraction) alert shows the eyes
      (focus) indicator at danger. */
  lemma AlertsShowDanger(d: Detection)
    ensures RiskPolicy.Triggers(d, Drowsiness) ==> EyesIndicator(d).status == Danger
    ensures RiskPolicy.Triggers(d, Distraction) ==> FocusIndicator(d).status == Danger
    ensures RiskPolicy.Triggers(d, NoFace) <==> FaceIndicator(d).status == Warning
    ensures RiskPolicy.Triggers(d, PhoneUsage) <==> PhoneIndicator(d).status == Danger
    ensures RiskPolicy.Triggers(d, Yawning) <==> YawnIndicator(d).status == Warning
  {
  }

  /** The two thresholds differ at exactly 80: the eyes show danger while
      no drowsiness alert is attempted. */
  lemma EyesDangerWithoutAlertAt80(d: Detection)
    requires d.drowsinessScore == 80.0
    ensures EyesIndicator(d).status == Danger
    ensures !RiskPolicy.Triggers(d, Drowsiness)
  {
  }

  /** A forward head never carries the head-pose weight of the risk score;
      between 15 and 20 degrees of yaw the head shows as turned without it. */
  lemma HeadPoseAndScore(d: Detection)
    ensures HeadPositionOf(d) == Forward ==>
      RiskPolicy.RiskScore(d) == RiskPolicy.RiskScore(d.(headPose := d.headPose.(yaw := 0.0)))
    ensures 15.0 <= Abs(d.headPose.yaw) <= 20.0 ==>
      HeadPositionOf(d) == Turned
      && RiskPolicy.RiskScore(d) == RiskPolicy.RiskScore(d.(headPose := d.headPose.(yaw := 0.0)))
  {
  }
}
