/** The camera-feed view: a 100 ms timer jitters every detection of the
    selected camera, a selector swaps the camera, and the view rolls the
    detections up into counts and one feed status. Each tick's `Math.random()`
    draws are a `JitterDraw` per detection. */
module LiveMonitoring {
  import opened Wrappers
  import opened Seqs
  import opened MockData

  const MinConfidence: real := 0.65
  const MaxConfidence: real := 0.99

  /** `(Math.random() - 0.5) * 3` moves a box by at most 1.5 down or left
      (exactly 1.5 at a draw of 0) and by less than 1.5 up or right;
      `(Math.random() - 0.5) * 0.05` moves a confidence by at most 0.025. */
  const PositionSpread: real := 3.0
  const ConfidenceSpread: real := 0.05

  datatype JitterDraw = JitterDraw(x: real, y: real, confidence: real)

  predicate ValidJitterDraw(d: JitterDraw) {
    0.0 <= d.x < 1.0 && 0.0 <= d.y < 1.0 && 0.0 <= d.confidence < 1.0
  }

  /** `Math.min(0.99, Math.max(0.65, c))`. */
  function ClampConfidence(c: real): (r: real)
    ensures MinConfidence <= r <= MaxConfidence
    ensures MinConfidence <= c <= MaxConfidence ==> r == c
    ensures c < MinConfidence ==> r == MinConfidence
    ensures c > MaxConfidence ==> r == MaxConfidence
  {
    var low := if c >= MinConfidence then c else MinConfidence;
    if low <= MaxConfidence then low else MaxConfidence
  }

  /** Clamping never moves two values further apart. */
  lemma ClampNonExpanding(a: real, b: real)
    ensures -(if a >= b then a - b else b - a) <= ClampConfidence(a) - ClampConfidence(b)
    ensures ClampConfidence(a) - ClampConfidence(b) <= (if a >= b then a - b else b - a)
  {
  }

  function JitterOne(d: Detection, j: JitterDraw): Detection {
    d.(bbox := d.bbox.(x := d.bbox.x + (j.x - 0.5) * PositionSpread,
                       y := d.bbox.y + (j.y - 0.5) * PositionSpread),
       confidence := ClampConfidence(d.confidence + (j.confidence - 0.5) * ConfidenceSpread))
  }

  /** One timer tick over the current detections. */
  function JitterTick(dets: seq<Detection>, draws: seq<JitterDraw>): (r: seq<Detection>)
    requires |draws| == |dets|
    ensures |r| == |dets|
    ensures forall i :: 0 <= i < |r| ==>
      && r[i].kind == dets[i].kind && r[i].status == dets[i].status
      && r[i].bbox.width == dets[i].bbox.width && r[i].bbox.height == dets[i].bbox.height
    ensures forall i :: 0 <= i < |r| ==> MinConfidence <= r[i].confidence <= MaxConfidence
    ensures forall i :: 0 <= i < |r| && ValidJitterDraw(draws[i]) ==>
      && -1.5 <= r[i].bbox.x - dets[i].bbox.x < 1.5
      && -1.5 <= r[i].bbox.y - dets[i].bbox.y < 1.5
      && -0.025 <= r[i].confidence - ClampConfidence(dets[i].confidence) <= 0.025
  {
    var r := seq(|dets|, i requires 0 <= i < |dets| => JitterOne(dets[i], draws[i]));
    forall i | 0 <= i < |r| && ValidJitterDraw(draws[i])
      ensures -0.025 <= r[i].confidence - ClampConfidence(dets[i].confidence) <= 0.025
    {
      ClampNonExpanding(dets[i].confidence + (draws[i].confidence - 0.5) * ConfidenceSpread, dets[i].confidence);
    }
    r
  }

  // ---------------------------------------------------------------------------
  // Camera selection

  datatype Monitor = Monitor(selected: CameraFeed, detections: seq<Detection>)

  /** The position of the first camera with the given id. */
  function FindCameraIndex(cameras: seq<CameraFeed>, id: string): (r: Option<nat>)
    ensures r.None? <==> forall c :: c in cameras ==> c.id != id
    ensures r.Some? ==> && r.value < |cameras| && cameras[r.value].id == id
                        && forall j :: 0 <= j < r.value ==> cameras[j].id != id
  {
    if |cameras| == 0 then None
    else if cameras[0].id == id then Some(0)
    else
      assert cameras == [cameras[0]] + cameras[1..];
      match FindCameraIndex(cameras[1..], id)
      case None => None
      case Some(k) => Some(k + 1)
  }

  /** `mockCameraFeeds.find(cam => cam.id === cameraId)`. */
  function FindCamera(cameras: seq<CameraFeed>, id: string): Option<CameraFeed> {
    match FindCameraIndex(cameras, id)
    case None => None
    case Some(k) => Some(cameras[k])
  }

  /** `handleCameraChange`: a known id selects that camera and resets the
      detections to its fixture list; an unknown id changes nothing. */
  function HandleCameraChange(m: Monitor, id: string): (r: Monitor)
    ensures (forall c :: c in MockCameraFeeds ==> c.id != id) ==> r == m
    ensures (exists c :: c in MockCameraFeeds && c.id == id) ==>
      r.selected in MockCameraFeeds && r.selected.id == id && r.detections == r.selected.detections
  {
    match FindCamera(MockCameraFeeds, id)
    case Some(camera) => Monitor(camera, camera.detections)
    case None => m
  }

  /** Selecting CAM-2 shows exactly its three fixture detections: a person and
      a helmet at warning and a fire at critical. */
  lemma SelectWeldingCamera(m: Monitor)
    ensures var r := HandleCameraChange(m, "CAM-2");
      && r.selected.id == "CAM-2"
      && |r.detections| == 3
      && r.detections[0].kind == Person && r.detections[0].status == Warning
      && r.detections[1].kind == Helmet && r.detections[1].status == Warning
      && r.detections[2].kind == Fire && r.detections[2].status == Critical
      && r.detections == MockCameraFeeds[1].detections
  {
    assert MockCameraFeeds[0].id != "CAM-2";
    assert MockCameraFeeds[1].id == "CAM-2";
    assert FindCameraIndex(MockCameraFeeds, "CAM-2") == Some(1);
  }

  /** A tick lifts CAM-2's 0.45 helmet confidence into the band. */
  lemma WeldingHelmetLifted(draws: seq<JitterDraw>)
    requires |draws| == 3 && ValidJitterDraw(draws[1])
    ensures JitterTick(MockCameraFeeds[1].detections, draws)[1].confidence == MinConfidence
  {
    var dets := MockCameraFeeds[1].detections;
    assert dets[1].confidence == 0.45;
    assert JitterTick(dets, draws)[1] == JitterOne(dets[1], draws[1]);
  }

  // ---------------------------------------------------------------------------
  // Counts and feed status

  datatype MonitorStats = MonitorStats(totalDetections: nat, safeCount: nat, warningCount: nat, criticalCount: nat)

  function CountStatus(dets: seq<Detection>, s: Status): nat {
    Count(dets, (d: Detection) => d.status == s)
  }

  /** The stats effect: each card is the number of detections with its
      status, and every detection is counted under exactly one status. */
  function ComputeStats(dets: seq<Detection>): (r: MonitorStats)
    ensures r.totalDetections == |dets|
    ensures r.safeCount == CountStatus(dets, Safe)
    ensures r.warningCount == CountStatus(dets, Warning)
    ensures r.criticalCount == CountStatus(dets, Critical)
    ensures r.safeCount + r.warningCount + r.criticalCount == r.totalDetections
    ensures r.safeCount == 0 <==> forall d :: d in dets ==> d.status != Safe
    ensures r.criticalCount == 0 <==> forall d :: d in dets ==> d.status != Critical
    ensures r.warningCount == 0 <==> forall d :: d in dets ==> d.status != Warning
  {
    CountPartition3(dets, (d: Detection) => d.status == Safe,
                          (d: Detection) => d.status == Warning,
                          (d: Detection) => d.status == Critical);
    CountZeroIffNone(dets, (d: Detection) => d.status == Safe);
    CountZeroIffNone(dets, (d: Detection) => d.status == Critical);
    CountZeroIffNone(dets, (d: Detection) => d.status == Warning);
    MonitorStats(|dets|, CountStatus(dets, Safe), CountStatus(dets, Warning), CountStatus(dets, Critical))
  }

  /** `detections.some(d => d.status === s)`. */
  predicate HasStatus(dets: seq<Detection>, s: Status) {
    exists d :: d in dets && d.status == s
  }

  /** `feedStatus`: critical if any detection is, else warning if any is,
      else safe (an empty list included). */
  function FeedStatus(dets: seq<Detection>): (r: Status)
    ensures r == Critical <==> exists d :: d in dets && d.status == Critical
    ensures r == Warning <==> (forall d :: d in dets ==> d.status != Critical)
                              && exists d :: d in dets && d.status == Warning
    ensures r == Safe <==> forall d :: d in dets ==> d.status == Safe
  {
    if HasStatus(dets, Critical) then Critical
    else if HasStatus(dets, Warning) then Warning
    else Safe
  }

  /** The feed status badge agrees with the count cards. */
  lemma FeedStatusFromCounts(dets: seq<Detection>)
    ensures var s := ComputeStats(dets);
      && (FeedStatus(dets) == Critical <==> s.criticalCount > 0)
      && (FeedStatus(dets) == Warning <==> s.criticalCount == 0 && s.warningCount > 0)
      && (FeedStatus(dets) == Safe <==> s.safeCount == s.totalDetections)
  {
  }

  /** Jitter moves boxes, not statuses: the counts and the feed status are the
      same after a tick. */
  lemma JitterKeepsStatus(dets: seq<Detection>, draws: seq<JitterDraw>)
    requires |draws| == |dets|
    ensures ComputeStats(JitterTick(dets, draws)) == ComputeStats(dets)
    ensures FeedStatus(JitterTick(dets, draws)) == FeedStatus(dets)
  {
    var r := JitterTick(dets, draws);
    StatusCountsAlign(r, dets, Safe);
    StatusCountsAlign(r, dets, Warning);
    StatusCountsAlign(r, dets, Critical);
    FeedStatusAlign(r, dets);
  }

  /** Two lists with the same statuses position by position count alike. */
  lemma {:induction false} StatusCountsAlign(a: seq<Detection>, b: seq<Detection>, s: Status)
    requires |a| == |b|
    requires forall i :: 0 <= i < |a| ==> a[i].status == b[i].status
    ensures CountStatus(a, s) == CountStatus(b, s)
  {
    if |a| > 0 {
      StatusCountsAlign(a[1..], b[1..], s);
    }
  }

  /** Two lists with the same statuses position by position share a feed status. */
  lemma FeedStatusAlign(a: seq<Detection>, b: seq<Detection>)
    requires |a| == |b|
    requires forall i :: 0 <= i < |a| ==> a[i].status == b[i].status
    ensures FeedStatus(a) == FeedStatus(b)
  {
    HasStatusAlign(a, b, Critical);
    HasStatusAlign(a, b, Warning);
  }

  lemma HasStatusAlign(a: seq<Detection>, b: seq<Detection>, s: Status)
    requires |a| == |b|
    requires forall i :: 0 <= i < |a| ==> a[i].status == b[i].status
    ensures HasStatus(a, s) <==> HasStatus(b, s)
  {
    if HasStatus(a, s) {
      var d :| d in a && d.status == s;
      var i :| 0 <= i < |a| && a[i] == d;
      assert b[i] in b;
    }
    if HasStatus(b, s) {
      var d :| d in b && d.status == s;
      var i :| 0 <= i < |b| && b[i] == d;
      assert a[i] in a;
    }
  }
}
