/** The live CCTV view: a start/stop lifecycle around a media stream, and a
    per-frame generator that rebuilds the overlay detections from scratch.
    The media API, the frame timer and `Date.now()` oscillation are inputs:
    `Acquisition` is the outcome of `getUserMedia`, `videoAttached` says
    whether the `<video>` ref is set, `FrameDraws` holds one frame's
    `Math.random()` draws and `Positions` the oscillated person positions. */
module LiveCctv {
  import opened Seqs

  datatype Kind = Helmet | Goggles | Mask | Shoes | Person | Vest

  datatype Status = Safe | Warning | Critical

  /** Coordinates and sizes are percentages of the frame; `name` is the
      source's `label`. */
  datatype Detection = Detection(
    id: string,
    kind: Kind,
    name: string,
    confidence: real,
    x: real,
    y: real,
    width: real,
    height: real,
    status: Status)

  // ---------------------------------------------------------------------------
  // Frame generation

  /** The draws of one frame, named after what they decide. */
  datatype FrameDraws = FrameDraws(
    person1Confidence: real,
    helmet: real,
    helmetConfidence: real,
    vest: real,
    vestConfidence: real,
    goggles: real,
    gogglesConfidence: real,
    noGoggles: real,
    mask: real,
    maskConfidence: real,
    secondPerson: real,
    person2Confidence: real)

  predicate InUnit(r: real) {
    0.0 <= r < 1.0
  }

  /** Every draw is a `Math.random()` value. */
  predicate ValidFrameDraws(d: FrameDraws) {
    && InUnit(d.person1Confidence) && InUnit(d.helmet) && InUnit(d.helmetConfidence)
    && InUnit(d.vest) && InUnit(d.vestConfidence) && InUnit(d.goggles)
    && InUnit(d.gogglesConfidence) && InUnit(d.noGoggles) && InUnit(d.mask)
    && InUnit(d.maskConfidence) && InUnit(d.secondPerson) && InUnit(d.person2Confidence)
  }

  datatype Positions = Positions(personX: real, personY: real, person2X: real, person2Y: real)

  /** Confidence reported for a missing helmet and for missing goggles. */
  const NoHelmetConfidence: real := 0.72
  const NoGogglesConfidence: real := 0.68

  function PersonEntry(d: FrameDraws, p: Positions): Detection {
    Detection("person-1", Person, "Person", 0.94 + d.person1Confidence * 0.05,
              p.personX, p.personY, 25.0, 55.0, Safe)
  }

  function HelmetEntry(d: FrameDraws, p: Positions): (r: Detection)
    ensures || (r.id == "helmet-1" && r.status == Safe)
            || (r.id == "no-helmet-1" && r.status == Critical && r.confidence == NoHelmetConfidence)
    ensures r.status == Critical <==> d.helmet <= 0.3
  {
    if d.helmet > 0.3 then
      Detection("helmet-1", Helmet, "Safety Helmet", 0.88 + d.helmetConfidence * 0.1,
                p.personX + 7.0, p.personY - 2.0, 11.0, 8.0, Safe)
    else
      Detection("no-helmet-1", Helmet, "No Helmet", NoHelmetConfidence,
                p.personX + 7.0, p.personY - 2.0, 11.0, 8.0, Critical)
  }

  function VestEntries(d: FrameDraws, p: Positions): (r: seq<Detection>)
    ensures |r| <= 1
    ensures forall x :: x in r ==> x.id == "vest-1" && x.status == Safe
    ensures HasId(r, "vest-1") <==> d.vest > 0.2
  {
    if d.vest > 0.2 then
      [Detection("vest-1", Vest, "Safety Vest", 0.91 + d.vestConfidence * 0.08,
                 p.personX + 4.0, p.personY + 12.0, 17.0, 20.0, Safe)]
    else []
  }

  function GogglesEntries(d: FrameDraws, p: Positions): (r: seq<Detection>)
    ensures |r| <= 1
    ensures forall x :: x in r ==>
      || (x.id == "goggles-1" && x.status == Safe)
      || (x.id == "no-goggles-1" && x.status == Warning && x.confidence == NoGogglesConfidence && d.goggles <= 0.4)
    ensures HasId(r, "goggles-1") <==> d.goggles > 0.4
    ensures HasId(r, "no-goggles-1") <==> d.goggles <= 0.4 && d.noGoggles > 0.5
  {
    if d.goggles > 0.4 then
      [Detection("goggles-1", Goggles, "Safety Goggles", 0.85 + d.gogglesConfidence * 0.1,
                 p.personX + 8.0, p.personY + 4.0, 9.0, 3.0, Safe)]
    else if d.noGoggles > 0.5 then
      [Detection("no-goggles-1", Goggles, "No Goggles", NoGogglesConfidence,
                 p.personX + 8.0, p.personY + 4.0, 9.0, 3.0, Warning)]
    else []
  }

  function MaskEntries(d: FrameDraws, p: Positions): (r: seq<Detection>)
    ensures |r| <= 1
    ensures forall x :: x in r ==> x.id == "mask-1" && x.status == Safe
    ensures HasId(r, "mask-1") <==> d.mask > 0.5
  {
    if d.mask > 0.5 then
      [Detection("mask-1", Mask, "Face Mask", 0.82 + d.maskConfidence * 0.15,
                 p.personX + 9.0, p.personY + 6.0, 7.0, 4.0, Safe)]
    else []
  }

  function SecondPersonEntries(d: FrameDraws, p: Positions): (r: seq<Detection>)
    ensures |r| == if d.secondPerson > 0.5 then 2 else 0
    ensures |r| == 2 ==> r[0].id == "person-2" && r[1].id == "helmet-2"
    ensures forall x :: x in r ==> x.status == Safe
  {
    if d.secondPerson > 0.5 then
      [Detection("person-2", Person, "Person", 0.92 + d.person2Confidence * 0.06,
                 p.person2X, p.person2Y, 23.0, 52.0, Safe),
       Detection("helmet-2", Helmet, "Safety Helmet", 0.93,
                 p.person2X + 6.0, p.person2Y - 2.0, 11.0, 8.0, Safe)]
    else []
  }

  predicate HasId(frame: seq<Detection>, id: string) {
    exists x :: x in frame && x.id == id
  }

  predicate DistinctIds(frame: seq<Detection>) {
    forall i, j :: 0 <= i < j < |frame| ==> frame[i].id != frame[j].id
  }

  predicate IdsWithin(frame: seq<Detection>, ids: set<string>) {
    forall x :: x in frame ==> x.id in ids
  }

  /** Joining two id-distinct lists whose ids come from disjoint sets keeps
      the ids distinct. */
  lemma DistinctAppend(a: seq<Detection>, b: seq<Detection>, ia: set<string>, ib: set<string>)
    requires DistinctIds(a) && DistinctIds(b)
    requires IdsWithin(a, ia) && IdsWithin(b, ib) && ia !! ib
    ensures DistinctIds(a + b) && IdsWithin(a + b, ia + ib)
  {
    var r := a + b;
    forall i, j | 0 <= i < j < |r|
      ensures r[i].id != r[j].id
    {
      if j < |a| {
        assert r[i] == a[i] && r[j] == a[j];
      } else if i >= |a| {
        assert r[i] == b[i - |a|] && r[j] == b[j - |a|];
      } else {
        assert r[i] == a[i] && a[i] in a;
        assert r[j] == b[j - |a|] && b[j - |a|] in b;
      }
    }
  }

  /** The ids the optional entries can carry, kept apart from person 1's. */
  const OptionalIds: set<string> := {"vest-1", "goggles-1", "no-goggles-1", "mask-1", "person-2", "helmet-2"}

  /** Everything after person 1 and their helmet entry: the vest, the
      goggles (or the missing-goggles warning), the mask and the second
      person with their helmet, each present or not. */
  function OptionalEntries(d: FrameDraws, p: Positions): (r: seq<Detection>)
    ensures |r| <= 5
    ensures IdsWithin(r, OptionalIds)
    ensures forall x :: x in r ==> x.status != Critical
    ensures forall x :: x in r && x.status == Warning ==>
      x.id == "no-goggles-1" && x.confidence == NoGogglesConfidence && d.goggles <= 0.4
  {
    var v := VestEntries(d, p);
    var g := GogglesEntries(d, p);
    var m := MaskEntries(d, p);
    var s := SecondPersonEntries(d, p);
    var r := v + g + m + s;
    assert forall x :: x in r ==> x in v || x in g || x in m || x in s;
    r
  }

  /** Each optional item is among the optional entries exactly when its draw
      crosses the threshold `updateDetections` tests. */
  lemma OptionalPresence(d: FrameDraws, p: Positions)
    ensures var r := OptionalEntries(d, p);
      && (HasId(r, "vest-1") <==> d.vest > 0.2)
      && (HasId(r, "goggles-1") <==> d.goggles > 0.4)
      && (HasId(r, "no-goggles-1") <==> d.goggles <= 0.4 && d.noGoggles > 0.5)
      && (HasId(r, "mask-1") <==> d.mask > 0.5)
  {
    var v := VestEntries(d, p);
    var g := GogglesEntries(d, p);
    var m := MaskEntries(d, p);
    var s := SecondPersonEntries(d, p);
    var r := v + g + m + s;
    assert OptionalEntries(d, p) == r;
    assert forall x :: x in r ==> x in v || x in g || x in m || x in s;
    assert forall x :: x in v || x in g || x in m || x in s ==> x in r;
  }

  /** No two optional entries share an id. */
  lemma OptionalIdsDistinct(d: FrameDraws, p: Positions)
    ensures DistinctIds(OptionalEntries(d, p))
  {
    var v := VestEntries(d, p);
    var g := GogglesEntries(d, p);
    var m := MaskEntries(d, p);
    var s := SecondPersonEntries(d, p);
    DistinctAppend(v, g, {"vest-1"}, {"goggles-1", "no-goggles-1"});
    DistinctAppend(v + g, m, {"vest-1", "goggles-1", "no-goggles-1"}, {"mask-1"});
    assert |s| == 2 ==> s[0] in s && s[1] in s;
    DistinctAppend(v + g + m, s, {"vest-1", "goggles-1", "no-goggles-1", "mask-1"}, {"person-2", "helmet-2"});
  }

  /** Person 2 and helmet 2 are among the optional entries together, as the
      last two, exactly when the second-person draw exceeds one half. */
  lemma OptionalSecondPerson(d: FrameDraws, p: Positions)
    ensures var r := OptionalEntries(d, p);
      && (HasId(r, "person-2") <==> d.secondPerson > 0.5)
      && (HasId(r, "helmet-2") <==> d.secondPerson > 0.5)
      && (d.secondPerson > 0.5 ==> r[|r| - 2].id == "person-2" && r[|r| - 1].id == "helmet-2")
  {
    var v := VestEntries(d, p);
    var g := GogglesEntries(d, p);
    var m := MaskEntries(d, p);
    var s := SecondPersonEntries(d, p);
    var r := v + g + m + s;
    assert forall x :: x in r ==> x in v + g + m || x in s;
    assert forall x: Detection :: x in v + g + m ==> x.id in {"vest-1", "goggles-1", "no-goggles-1", "mask-1"};
    if |s| == 2 {
      assert r[|r| - 2] == s[0] && r[|r| - 1] == s[1];
      assert r[|r| - 2] in r && r[|r| - 1] in r;
    }
  }

  /** The list `updateDetections` builds for one frame. */
  function BuildFrame(d: FrameDraws, p: Positions): (r: seq<Detection>)
    ensures 2 <= |r| <= 7
    ensures r[0].id == "person-1" && r[0].kind == Person && r[0].status == Safe
    ensures || (r[1].id == "helmet-1" && r[1].status == Safe)
            || (r[1].id == "no-helmet-1" && r[1].status == Critical && r[1].confidence == NoHelmetConfidence)
    ensures forall x :: x in r[2..] ==> x.id in OptionalIds
    ensures r[2..] == OptionalEntries(d, p)
  {
    var r := [PersonEntry(d, p), HelmetEntry(d, p)] + OptionalEntries(d, p);
    assert r[2..] == OptionalEntries(d, p);
    r
  }

  /** No two entries of a frame share an id. */
  lemma FrameIdsDistinct(d: FrameDraws, p: Positions)
    ensures DistinctIds(BuildFrame(d, p))
  {
    var head := [PersonEntry(d, p), HelmetEntry(d, p)];
    var tail := OptionalEntries(d, p);
    OptionalIdsDistinct(d, p);
    DistinctAppend(head, tail, {"person-1", "helmet-1", "no-helmet-1"}, OptionalIds);
    assert BuildFrame(d, p) == head + tail;
  }

  /** The second person is drawn together with their helmet, as the last two
      entries, and only when the draw for them exceeds one half. */
  lemma FrameSecondPerson(d: FrameDraws, p: Positions)
    ensures var r := BuildFrame(d, p);
      && (HasId(r, "person-2") <==> d.secondPerson > 0.5)
      && (HasId(r, "helmet-2") <==> d.secondPerson > 0.5)
      && (d.secondPerson > 0.5 ==> r[|r| - 2].id == "person-2" && r[|r| - 1].id == "helmet-2")
  {
    var head := [PersonEntry(d, p), HelmetEntry(d, p)];
    var tail := OptionalEntries(d, p);
    var r := head + tail;
    assert BuildFrame(d, p) == r;
    OptionalSecondPerson(d, p);
    HasIdAppend(head, tail, "person-2");
    HasIdAppend(head, tail, "helmet-2");
    HeadIds(d, p);
    if d.secondPerson > 0.5 {
      assert r[|r| - 2] == tail[|tail| - 2] && r[|r| - 1] == tail[|tail| - 1];
    }
  }

  /** Person 1 is always in a frame, followed by either the helmet or the
      missing-helmet alarm, decided by the helmet draw. */
  lemma FrameHeadPresence(d: FrameDraws, p: Positions)
    ensures var r := BuildFrame(d, p);
      && HasId(r, "person-1")
      && (HasId(r, "helmet-1") <==> d.helmet > 0.3)
      && (HasId(r, "no-helmet-1") <==> d.helmet <= 0.3)
  {
    HeadIdInFrame(d, p, "person-1");
    HeadIdInFrame(d, p, "helmet-1");
    HeadIdInFrame(d, p, "no-helmet-1");
    HeadPresence(d, p);
  }

  lemma HeadPresence(d: FrameDraws, p: Positions)
    ensures var head := [PersonEntry(d, p), HelmetEntry(d, p)];
      && HasId(head, "person-1")
      && (HasId(head, "helmet-1") <==> d.helmet > 0.3)
      && (HasId(head, "no-helmet-1") <==> d.helmet <= 0.3)
  {
    var head := [PersonEntry(d, p), HelmetEntry(d, p)];
    assert head[0] in head && head[0].id == "person-1";
    var h := head[1];
    assert h in head;
    if d.helmet > 0.3 {
      assert h.id == "helmet-1";
      assert forall x :: x in head ==> x.id != "no-helmet-1";
    } else {
      assert h.id == "no-helmet-1";
      assert forall x :: x in head ==> x.id != "helmet-1";
    }
  }

  /** Each optional item is in a frame exactly when its draw crosses the
      threshold `updateDetections` tests. */
  lemma FrameOptionalPresence(d: FrameDraws, p: Positions)
    ensures var r := BuildFrame(d, p);
      && (HasId(r, "vest-1") <==> d.vest > 0.2)
      && (HasId(r, "goggles-1") <==> d.goggles > 0.4)
      && (HasId(r, "no-goggles-1") <==> d.goggles <= 0.4 && d.noGoggles > 0.5)
      && (HasId(r, "mask-1") <==> d.mask > 0.5)
  {
    OptionalPresence(d, p);
    OptionalIdInFrame(d, p, "vest-1");
    OptionalIdInFrame(d, p, "goggles-1");
    OptionalIdInFrame(d, p, "no-goggles-1");
    OptionalIdInFrame(d, p, "mask-1");
  }

  /** An id of person 1 or their helmet slot is in the frame exactly when
      those two entries carry it. */
  lemma HeadIdInFrame(d: FrameDraws, p: Positions, id: string)
    requires id in {"person-1", "helmet-1", "no-helmet-1"}
    ensures HasId(BuildFrame(d, p), id) <==> HasId([PersonEntry(d, p), HelmetEntry(d, p)], id)
  {
    var head := [PersonEntry(d, p), HelmetEntry(d, p)];
    var tail := OptionalEntries(d, p);
    assert BuildFrame(d, p) == head + tail;
    HeadIdsNotOptional(id);
    assert !HasId(tail, id);
    HasIdAppend(head, tail, id);
  }

  lemma HeadIdsNotOptional(id: string)
    requires id in {"person-1", "helmet-1", "no-helmet-1"}
    ensures id !in OptionalIds
  {
  }

  /** An optional id is in the frame exactly when the optional entries carry it. */
  lemma OptionalIdInFrame(d: FrameDraws, p: Positions, id: string)
    requires id in {"vest-1", "goggles-1", "no-goggles-1", "mask-1"}
    ensures HasId(BuildFrame(d, p), id) <==> HasId(OptionalEntries(d, p), id)
  {
    var head := [PersonEntry(d, p), HelmetEntry(d, p)];
    var tail := OptionalEntries(d, p);
    assert BuildFrame(d, p) == head + tail;
    assert forall x :: x in head ==> x.id in {"person-1", "helmet-1", "no-helmet-1"};
    HasIdAppend(head, tail, id);
  }

  /** Person 1 and their helmet slot carry neither of person 2's ids. */
  lemma HeadIds(d: FrameDraws, p: Positions)
    ensures !HasId([PersonEntry(d, p), HelmetEntry(d, p)], "person-2")
    ensures !HasId([PersonEntry(d, p), HelmetEntry(d, p)], "helmet-2")
  {
    var head := [PersonEntry(d, p), HelmetEntry(d, p)];
    assert forall x :: x in head ==> x.id in {"person-1", "helmet-1", "no-helmet-1"};
  }

  /** The only entry that raises the critical alarm is the missing helmet; the
      only one that can warn is the missing goggles, reported at its fixed
      confidence and only when the goggles draw is at most 0.4. */
  lemma FrameAlarms(d: FrameDraws, p: Positions)
    ensures forall x :: x in BuildFrame(d, p) && x.status == Critical ==> x.id == "no-helmet-1"
    ensures forall x :: x in BuildFrame(d, p) && x.status == Warning ==>
      x.id == "no-goggles-1" && x.confidence == NoGogglesConfidence && d.goggles <= 0.4
  {
    var head := [PersonEntry(d, p), HelmetEntry(d, p)];
    var tail := OptionalEntries(d, p);
    assert BuildFrame(d, p) == head + tail;
    assert forall x :: x in head + tail ==> x in head || x in tail;
  }

  lemma HasIdAppend(a: seq<Detection>, b: seq<Detection>, id: string)
    ensures HasId(a + b, id) <==> HasId(a, id) || HasId(b, id)
  {
    if HasId(a + b, id) {
      var x :| x in a + b && x.id == id;
      assert x in a || x in b;
    }
    if HasId(a, id) {
      var x :| x in a && x.id == id;
      assert x in a + b;
    }
    if HasId(b, id) {
      var x :| x in b && x.id == id;
      assert x in a + b;
    }
  }

  datatype FrameCounts = FrameCounts(detectionCount: nat, safeCount: nat, warningCount: nat, criticalCount: nat)

  function CountStatus(frame: seq<Detection>, s: Status): nat {
    Count(frame, (x: Detection) => x.status == s)
  }

  /** The statistics recomputed from a frame: each card is the number of
      entries with its status, and every entry is counted once. */
  function FrameStats(frame: seq<Detection>): (r: FrameCounts)
    ensures r.detectionCount == |frame|
    ensures r.safeCount == CountStatus(frame, Safe)
    ensures r.warningCount == CountStatus(frame, Warning)
    ensures r.criticalCount == CountStatus(frame, Critical)
    ensures r.safeCount + r.warningCount + r.criticalCount == r.detectionCount
  {
    CountPartition3(frame, (x: Detection) => x.status == Safe,
                           (x: Detection) => x.status == Warning,
                           (x: Detection) => x.status == Critical);
    FrameCounts(|frame|, CountStatus(frame, Safe), CountStatus(frame, Warning), CountStatus(frame, Critical))
  }

  /** A frame raises the critical alarm exactly when the helmet is missing,
      and holds at most one warning. */
  lemma FrameStatusBounds(d: FrameDraws, p: Positions)
    ensures FrameStats(BuildFrame(d, p)).criticalCount == if d.helmet <= 0.3 then 1 else 0
    ensures FrameStats(BuildFrame(d, p)).warningCount <= 1
  {
    var head := [PersonEntry(d, p), HelmetEntry(d, p)];
    var tail := OptionalEntries(d, p);
    var critical := (x: Detection) => x.status == Critical;
    var warning := (x: Detection) => x.status == Warning;
    CountAppend(head, tail, critical);
    CountAppend(head, tail, warning);
    CountZeroIffNone(tail, critical);
    CountStep(head, 0, critical);
    CountStep(head, 1, critical);
    CountStep(head, 0, warning);
    CountStep(head, 1, warning);
    assert head[2..] == [];
    assert head[0..] == head;
    WarningsInTail(d, p);
  }

  /** Only the goggles entry can warn, and there is at most one of it. */
  lemma WarningsInTail(d: FrameDraws, p: Positions)
    ensures CountStatus(OptionalEntries(d, p), Warning) <= 1
  {
    var v := VestEntries(d, p);
    var g := GogglesEntries(d, p);
    var m := MaskEntries(d, p);
    var s := SecondPersonEntries(d, p);
    var warning := (x: Detection) => x.status == Warning;
    CountAppend(v + g + m, s, warning);
    CountAppend(v + g, m, warning);
    CountAppend(v, g, warning);
    CountZeroIffNone(v, warning);
    CountZeroIffNone(m, warning);
    CountZeroIffNone(s, warning);
  }

  /** Every confidence a frame reports is a probability. */
  lemma FrameConfidencesInUnit(d: FrameDraws, p: Positions)
    requires ValidFrameDraws(d)
    ensures forall x :: x in BuildFrame(d, p) ==> 0.0 <= x.confidence <= 1.0
  {
    var v := VestEntries(d, p);
    var g := GogglesEntries(d, p);
    var m := MaskEntries(d, p);
    var s := SecondPersonEntries(d, p);
    assert BuildFrame(d, p) == [PersonEntry(d, p), HelmetEntry(d, p)] + (v + g + m + s);
  }

  /** With every draw at zero, nothing optional is present: the frame is the
      person and the missing-helmet alarm. */
  lemma AllZeroFrame(p: Positions)
    ensures var r := BuildFrame(FrameDraws(0.0, 0.0, 0.0, 0.0, 0.0, 0.0, 0.0, 0.0, 0.0, 0.0, 0.0, 0.0), p);
      && |r| == 2
      && r[0] == Detection("person-1", Person, "Person", 0.94, p.personX, p.personY, 25.0, 55.0, Safe)
      && r[1] == Detection("no-helmet-1", Helmet, "No Helmet", 0.72,
                           p.personX + 7.0, p.personY - 2.0, 11.0, 8.0, Critical)
  {
    var d := FrameDraws(0.0, 0.0, 0.0, 0.0, 0.0, 0.0, 0.0, 0.0, 0.0, 0.0, 0.0, 0.0);
    assert OptionalEntries(d, p) == [];
  }

  // ---------------------------------------------------------------------------
  // Stream lifecycle

  datatype CctvStats = CctvStats(fps: nat, detectionCount: nat, safeCount: nat, warningCount: nat, criticalCount: nat)

  /** The view's state. `streamHeld` stands for `streamRef.current` being set. */
  datatype Viewer = Viewer(
    isStreaming: bool,
    error: string,
    detections: seq<Detection>,
    streamHeld: bool,
    stats: CctvStats)

  const CameraError: string := "Failed to access camera. Please ensure camera permissions are granted."

  function InitialViewer(): Viewer {
    Viewer(false, "", [], false, CctvStats(0, 0, 0, 0, 0))
  }

  /** Outcome of `navigator.mediaDevices.getUserMedia`. */
  datatype Acquisition = Granted | Denied

  /** `stopStream`: stops and releases the stream and clears the overlay. The
      statistics are left as they were. */
  function StopStream(v: Viewer): (r: Viewer)
    ensures !r.isStreaming && !r.streamHeld && r.detections == []
    ensures r.stats == v.stats && r.error == v.error
  {
    v.(isStreaming := false, streamHeld := false, detections := [])
  }

  /** `startStream`: clears the error, then either records the failure
      message or, if a video element is attached, holds the stream and starts
      streaming. Without a video element the granted stream is dropped and
      nothing else changes. */
  function StartStream(v: Viewer, a: Acquisition, videoAttached: bool): (r: Viewer)
    ensures r.detections == v.detections && r.stats == v.stats
    ensures a == Denied ==> r.error == CameraError && r.isStreaming == v.isStreaming && r.streamHeld == v.streamHeld
    ensures a == Granted ==> r.error == ""
    ensures r.isStreaming <==> v.isStreaming || (a == Granted && videoAttached)
    ensures r.streamHeld <==> v.streamHeld || (a == Granted && videoAttached)
  {
    var cleared := v.(error := "");
    match a
    case Denied => cleared.(error := CameraError)
    case Granted =>
      if videoAttached then cleared.(streamHeld := true, isStreaming := true) else cleared
  }

  /** One animation frame: while streaming, the overlay is replaced by a new
      frame and the counts are recomputed from it; the FPS reading is kept. */
  function RunFrame(v: Viewer, d: FrameDraws, p: Positions): (r: Viewer)
    ensures !v.isStreaming ==> r == v
    ensures v.isStreaming ==>
      && r.isStreaming && r.streamHeld == v.streamHeld && r.error == v.error
      && r.detections == BuildFrame(d, p)
      && r.stats.fps == v.stats.fps
      && r.stats.detectionCount == |r.detections|
      && r.stats.safeCount == CountStatus(r.detections, Safe)
      && r.stats.warningCount == CountStatus(r.detections, Warning)
      && r.stats.criticalCount == CountStatus(r.detections, Critical)
  {
    if !v.isStreaming then v
    else
      var frame := BuildFrame(d, p);
      var c := FrameStats(frame);
      v.(detections := frame,
         stats := v.stats.(detectionCount := c.detectionCount, safeCount := c.safeCount,
                           warningCount := c.warningCount, criticalCount := c.criticalCount))
  }

  /** What holds between events: the stream is held exactly while streaming,
      the overlay is empty when not streaming, and a non-empty overlay is a
      frame led by person 1 whose count matches the card. */
  predicate Consistent(v: Viewer) {
    && (v.isStreaming <==> v.streamHeld)
    && (!v.isStreaming ==> v.detections == [])
    && (v.detections != [] ==> v.detections[0].id == "person-1" && v.stats.detectionCount == |v.detections|)
  }

  /** The start handler with the `<video>` element rendered whether or not
      the view is streaming, so that a granted stream is always attached. */
  function StartWithVideoMounted(v: Viewer, a: Acquisition): (r: Viewer)
    ensures a == Granted ==> r.isStreaming && r.streamHeld && r.error == ""
    ensures a == Denied ==> r.error == CameraError && r.isStreaming == v.isStreaming
  {
    StartStream(v, a, true)
  }

  /** The start handler as the view renders it: the ref-carrying `<video>`
      exists only in the streaming branch, so the ref is attached exactly
      when the view is already streaming. */
  function StartFromRenderedView(v: Viewer, a: Acquisition): (r: Viewer)
    ensures !v.isStreaming ==> !r.isStreaming && r.streamHeld == v.streamHeld
  {
    StartStream(v, a, v.isStreaming)
  }

  /** The Start button is only shown while not streaming, and from there the
      rendered view never starts: a granted camera only clears the error. */
  lemma StartButtonNeverStreams(v: Viewer, a: Acquisition)
    requires !v.isStreaming
    ensures !StartFromRenderedView(v, a).isStreaming
    ensures a == Granted ==> StartFromRenderedView(v, a) == v.(error := "")
  {
  }

  datatype Event =
    | StartPressed(acquisition: Acquisition)
    | StopPressed
    | Frame(draws: FrameDraws, positions: Positions)

  /** The lifecycle, with the start handler corrected to a mounted video. */
  function Step(v: Viewer, e: Event): Viewer {
    match e
    case StartPressed(a) => StartWithVideoMounted(v, a)
    case StopPressed => StopStream(v)
    case Frame(d, p) => RunFrame(v, d, p)
  }

  /** Every event keeps the view consistent. */
  lemma StepKeepsConsistent(v: Viewer, e: Event)
    requires Consistent(v)
    ensures Consistent(Step(v, e))
  {
    match e
    case StartPressed(a) =>
    case StopPressed =>
    case Frame(d, p) =>
  }

  /** Any sequence of events from the initial view. */
  function Run(v: Viewer, events: seq<Event>): Viewer
    decreases |events|
  {
    if |events| == 0 then v else Run(Step(v, events[0]), events[1..])
  }

  /** Whatever happens, the stream is held exactly while streaming and the
      overlay is empty whenever the view is not streaming. */
  lemma {:induction false} RunKeepsConsistent(v: Viewer, events: seq<Event>)
    requires Consistent(v)
    ensures Consistent(Run(v, events))
    decreases |events|
  {
    if |events| > 0 {
      StepKeepsConsistent(v, events[0]);
      RunKeepsConsistent(Step(v, events[0]), events[1..]);
    }
  }

  /** A granted start, any frames, then stop: the view is back to not
      streaming with no stream held and an empty overlay. */
  lemma StartFramesStop(a: Acquisition, frames: seq<Event>)
    requires forall i :: 0 <= i < |frames| ==> frames[i].Frame?
    ensures var v := Run(InitialViewer(), [StartPressed(a)] + frames + [StopPressed]);
      !v.isStreaming && !v.streamHeld && v.detections == []
  {
    var events := [StartPressed(a)] + frames + [StopPressed];
    RunKeepsConsistent(InitialViewer(), events);
    RunLastStop(InitialViewer(), [StartPressed(a)] + frames);
    assert events == ([StartPressed(a)] + frames) + [StopPressed];
  }

  lemma {:induction false} RunLastStop(v: Viewer, events: seq<Event>)
    ensures var r := Run(v, events + [StopPressed]);
      !r.isStreaming && !r.streamHeld && r.detections == []
    decreases |events|
  {
    if |events| == 0 {
      assert events + [StopPressed] == [StopPressed];
    } else {
      assert (events + [StopPressed])[1..] == events[1..] + [StopPressed];
      RunLastStop(Step(v, events[0]), events[1..]);
    }
  }

  /** The lifecycle with the start handler as the view renders it. */
  function StepAsWritten(v: Viewer, e: Event): Viewer {
    match e
    case StartPressed(a) => StartFromRenderedView(v, a)
    case StopPressed => StopStream(v)
    case Frame(d, p) => RunFrame(v, d, p)
  }

  function RunAsWritten(v: Viewer, events: seq<Event>): Viewer
    decreases |events|
  {
    if |events| == 0 then v else RunAsWritten(StepAsWritten(v, events[0]), events[1..])
  }

  /** The handlers as written keep the same invariant. */
  lemma StepAsWrittenKeepsConsistent(v: Viewer, e: Event)
    requires Consistent(v)
    ensures Consistent(StepAsWritten(v, e))
  {
    match e
    case StartPressed(a) =>
    case StopPressed =>
    case Frame(d, p) =>
  }

  /** As written, the view never leaves the placeholder: from a view that is
      not streaming, no sequence of presses and frames starts streaming,
      holds a stream or shows an overlay. */
  lemma {:induction false} RunAsWrittenNeverStreams(v: Viewer, events: seq<Event>)
    requires !v.isStreaming && !v.streamHeld && v.detections == []
    ensures var r := RunAsWritten(v, events);
      !r.isStreaming && !r.streamHeld && r.detections == []
    decreases |events|
  {
    if |events| > 0 {
      RunAsWrittenNeverStreams(StepAsWritten(v, events[0]), events[1..]);
    }
  }
}
