/** The mock-data module: the shared records, the fixture arrays, the random
    alert generator and the dashboard aggregates. `Math.random()` and `new Date()`
    are parameters: each alert consumes one `AlertDraw` of already-scaled draws
    (`Math.floor(Math.random() * n)` is a natural below `n`) and `now` is the
    clock in milliseconds. */
module MockData {
  import opened Wrappers
  import opened Seqs
  import opened Text
  import RelativeTime

  // ---------------------------------------------------------------------------
  // Records

  datatype Severity = Low | Medium | High

  datatype Alert = Alert(
    id: string,
    timestamp: int,
    cameraId: string,
    zone: string,
    violationType: string,
    severity: Severity,
    description: string)

  datatype Employee = Employee(
    id: string,
    name: string,
    helmet: bool,
    goggles: bool,
    mask: bool,
    shoes: bool,
    totalViolations: nat,
    lastViolation: Option<int>)

  datatype DetectionKind = Helmet | Goggles | Mask | Shoes | Fire | Smoke | Person

  datatype Status = Safe | Warning | Critical

  datatype BBox = BBox(x: real, y: real, width: real, height: real)

  datatype Detection = Detection(kind: DetectionKind, status: Status, confidence: real, bbox: BBox)

  datatype FeedActivity = Active | Inactive

  datatype CameraFeed = CameraFeed(
    id: string,
    name: string,
    zone: string,
    status: FeedActivity,
    detections: seq<Detection>)

  datatype ViolationData = ViolationData(date: string, violations: nat)

  datatype ComplianceData = ComplianceData(zone: string, compliance: nat)

  datatype RiskLevel = SafeZone | Moderate | HighRisk

  datatype ZoneRisk = ZoneRisk(id: string, name: string, riskLevel: RiskLevel, workersCount: nat, x: int, y: int)

  // ---------------------------------------------------------------------------
  // Alert generation

  const ViolationTypes: seq<string> := [
    "No Helmet Detected",
    "No Safety Goggles",
    "No Mask",
    "Fire Detected",
    "Smoke Detected",
    "Restricted Area Access",
    "PPE Non-Compliance"
  ]

  const Zones: seq<string> := [
    "Assembly Line A", "Welding Zone B", "Storage Area C", "Loading Dock D", "Machinery Hall E"
  ]

  const Severities: seq<Severity> := [Low, Medium, High]

  /** Alerts per batch, cameras to pick from, and the look-back window in minutes. */
  const BatchSize: nat := 15
  const CameraCount: nat := 12
  const WindowMinutes: nat := 120

  /** The six draws one loop iteration makes, in source order, each already
      scaled to its range. */
  datatype AlertDraw = AlertDraw(
    minutesAgo: nat,
    violation: nat,
    camera: nat,
    zone: nat,
    severity: nat,
    descriptionZone: nat)

  predicate ValidDraw(d: AlertDraw) {
    && d.minutesAgo < WindowMinutes
    && d.violation < |ViolationTypes|
    && d.camera < CameraCount
    && d.zone < |Zones|
    && d.severity < |Severities|
    && d.descriptionZone < |Zones|
  }

  predicate ValidDraws(draws: seq<AlertDraw>) {
    forall i :: 0 <= i < |draws| ==> ValidDraw(draws[i])
  }

  /** `new Date(now.getTime() - minutesAgo * 60000)`. */
  function MinutesBefore(now: int, minutes: int): int {
    now - minutes * RelativeTime.MillisPerMinute
  }

  /** `alert-${i}`. */
  function AlertId(i: nat): string {
    "alert-" + NatToString(i)
  }

  /** `CAM-${k}`. */
  function CameraId(k: nat): string {
    "CAM-" + NatToString(k)
  }

  function Describe(violationType: string, zone: string): string {
    violationType + " in " + zone
  }

  /** The shape every generated alert has, whatever the draws were. The
      description names some listed zone, not necessarily the alert's own. */
  ghost predicate WellFormedAlert(a: Alert, now: int) {
    && (exists m :: 0 <= m < WindowMinutes && a.timestamp == MinutesBefore(now, m))
    && (exists k :: 1 <= k <= CameraCount && a.cameraId == CameraId(k))
    && a.zone in Zones
    && a.violationType in ViolationTypes
    && a.severity in Severities
    && (exists z :: z in Zones && a.description == Describe(a.violationType, z))
  }

  /** The alert built by iteration `i` of the generator loop. */
  function MakeAlert(i: nat, now: int, d: AlertDraw): (a: Alert)
    requires ValidDraw(d)
    ensures WellFormedAlert(a, now)
    ensures a.id == AlertId(i)
    ensures a.timestamp <= now
  {
    var violationType := ViolationTypes[d.violation];
    var a := Alert(
      AlertId(i),
      MinutesBefore(now, d.minutesAgo),
      CameraId(d.camera + 1),
      Zones[d.zone],
      violationType,
      Severities[d.severity],
      Describe(violationType, Zones[d.descriptionZone]));
    assert a.cameraId == CameraId(d.camera + 1);
    assert a.description == Describe(a.violationType, Zones[d.descriptionZone]);
    a
  }

  /** The loop's `alerts` array before sorting: one alert per draw, in order. */
  function Batch(draws: seq<AlertDraw>, now: int): (b: seq<Alert>)
    requires ValidDraws(draws)
    ensures |b| == |draws|
    ensures forall i :: 0 <= i < |b| ==> b[i] == MakeAlert(i, now, draws[i])
  {
    seq(|draws|, i requires 0 <= i < |draws| => MakeAlert(i, now, draws[i]))
  }

  predicate SortedNewestFirst(s: seq<Alert>) {
    forall i, j :: 0 <= i < j < |s| ==> s[i].timestamp >= s[j].timestamp
  }

  predicate DistinctIds(s: seq<Alert>) {
    forall i, j :: 0 <= i < j < |s| ==> s[i].id != s[j].id
  }

  /** Places `a` in front of the first alert that is not newer than it. */
  function InsertNewestFirst(a: Alert, s: seq<Alert>): (r: seq<Alert>)
    ensures |r| == |s| + 1
    ensures multiset(r) == multiset(s) + multiset{a}
  {
    if |s| == 0 then [a]
    else if s[0].timestamp <= a.timestamp then [a] + s
    else
      assert s == [s[0]] + s[1..];
      [s[0]] + InsertNewestFirst(a, s[1..])
  }

  /** `alerts.sort((a, b) => b.timestamp - a.timestamp)`, an insertion sort.
      An earlier alert is placed before later ones with the same timestamp,
      as the stable `Array.prototype.sort` does. */
  function SortNewestFirst(s: seq<Alert>): (r: seq<Alert>)
    ensures |r| == |s|
    ensures multiset(r) == multiset(s)
  {
    if |s| == 0 then []
    else
      assert s == [s[0]] + s[1..];
      InsertNewestFirst(s[0], SortNewestFirst(s[1..]))
  }

  /** Elements of a permutation are elements of the original. */
  lemma PermutationMembers(r: seq<Alert>, s: seq<Alert>)
    requires multiset(r) == multiset(s)
    ensures forall x :: x in r <==> x in s
  {
    assert forall x :: x in r <==> x in multiset(r);
    assert forall x :: x in s <==> x in multiset(s);
  }

  lemma InsertMembers(a: Alert, s: seq<Alert>)
    ensures forall x :: x in InsertNewestFirst(a, s) <==> x == a || x in s
  {
    var r := InsertNewestFirst(a, s);
    assert forall x :: x in r <==> x in multiset(r);
    assert forall x :: x in s <==> x in multiset(s);
  }

  lemma {:induction false} InsertKeepsOrder(a: Alert, s: seq<Alert>)
    requires SortedNewestFirst(s)
    ensures SortedNewestFirst(InsertNewestFirst(a, s))
  {
    if |s| > 0 && s[0].timestamp > a.timestamp {
      var rest := InsertNewestFirst(a, s[1..]);
      InsertKeepsOrder(a, s[1..]);
      InsertMembers(a, s[1..]);
      assert forall x :: x in rest ==> x.timestamp <= s[0].timestamp;
      ConsSorted(s[0], rest);
      assert InsertNewestFirst(a, s) == [s[0]] + rest;
    } else if |s| > 0 {
      ConsSorted(a, s);
    }
  }

  /** An alert no older than any in a sorted list can go in front of it. */
  lemma ConsSorted(x: Alert, rest: seq<Alert>)
    requires SortedNewestFirst(rest)
    requires forall y :: y in rest ==> y.timestamp <= x.timestamp
    ensures SortedNewestFirst([x] + rest)
  {
    var r := [x] + rest;
    forall i, j | 0 <= i < j < |r|
      ensures r[i].timestamp >= r[j].timestamp
    {
      assert r[j] == rest[j - 1];
      if i > 0 {
        assert r[i] == rest[i - 1];
      } else {
        assert rest[j - 1] in rest;
      }
    }
  }

  lemma {:induction false} InsertKeepsIdsDistinct(a: Alert, s: seq<Alert>)
    requires DistinctIds(s)
    requires forall x :: x in s ==> x.id != a.id
    ensures DistinctIds(InsertNewestFirst(a, s))
  {
    if |s| > 0 && s[0].timestamp > a.timestamp {
      var rest := InsertNewestFirst(a, s[1..]);
      InsertKeepsIdsDistinct(a, s[1..]);
      InsertMembers(a, s[1..]);
      assert forall x :: x in rest ==> x.id != s[0].id;
      assert InsertNewestFirst(a, s) == [s[0]] + rest;
    }
  }

  /** The sort yields alerts newest first. */
  lemma {:induction false} SortOrders(s: seq<Alert>)
    ensures SortedNewestFirst(SortNewestFirst(s))
  {
    if |s| > 0 {
      SortOrders(s[1..]);
      InsertKeepsOrder(s[0], SortNewestFirst(s[1..]));
    }
  }

  /** The sort never makes two alerts share an id. */
  lemma {:induction false} SortKeepsIdsDistinct(s: seq<Alert>)
    requires DistinctIds(s)
    ensures DistinctIds(SortNewestFirst(s))
  {
    if |s| > 0 {
      var rest := SortNewestFirst(s[1..]);
      SortKeepsIdsDistinct(s[1..]);
      PermutationMembers(rest, s[1..]);
      assert forall x :: x in rest ==> x.id != s[0].id;
      InsertKeepsIdsDistinct(s[0], rest);
    }
  }

  lemma AlertIdInjective(i: nat, j: nat)
    ensures AlertId(i) == AlertId(j) ==> i == j
  {
    if AlertId(i) == AlertId(j) {
      assert AlertId(i)[6..] == NatToString(i);
      assert AlertId(j)[6..] == NatToString(j);
      NatToStringInjective(i, j);
    }
  }

  /** `generateAlerts()`: fifteen alerts, newest first, a permutation of the
      batch the loop built. */
  function GenerateAlerts(draws: seq<AlertDraw>, now: int): (r: seq<Alert>)
    requires |draws| == BatchSize && ValidDraws(draws)
    ensures |r| == BatchSize
    ensures SortedNewestFirst(r)
    ensures multiset(r) == multiset(Batch(draws, now))
  {
    SortOrders(Batch(draws, now));
    SortNewestFirst(Batch(draws, now))
  }

  /** Every generated alert takes its fields from the closed lists: a
      timestamp whole minutes within the last two hours, one of twelve cameras,
      a listed zone, violation type and severity, and a description naming a
      listed zone. */
  lemma GeneratedAlertsWellFormed(draws: seq<AlertDraw>, now: int)
    requires |draws| == BatchSize && ValidDraws(draws)
    ensures forall a :: a in GenerateAlerts(draws, now) ==> WellFormedAlert(a, now) && a.timestamp <= now
  {
    var b := Batch(draws, now);
    PermutationMembers(GenerateAlerts(draws, now), b);
    assert forall a :: a in b ==> WellFormedAlert(a, now) && a.timestamp <= now;
  }

  /** The generated ids are exactly `alert-0` to `alert-14`, no two alike. */
  lemma GeneratedAlertIds(draws: seq<AlertDraw>, now: int)
    requires |draws| == BatchSize && ValidDraws(draws)
    ensures DistinctIds(GenerateAlerts(draws, now))
    ensures (set a | a in GenerateAlerts(draws, now) :: a.id) == (set i | 0 <= i < BatchSize :: AlertId(i))
  {
    var b := Batch(draws, now);
    var r := GenerateAlerts(draws, now);
    forall i, j | 0 <= i < j < |b|
      ensures b[i].id != b[j].id
    {
      AlertIdInjective(i, j);
    }
    SortKeepsIdsDistinct(b);
    PermutationMembers(r, b);
    forall i | 0 <= i < BatchSize
      ensures AlertId(i) in (set a | a in r :: a.id)
    {
      assert b[i] in r;
    }
  }

  // ---------------------------------------------------------------------------
  // Dashboard aggregates

  const ViolationsOverTime: seq<ViolationData> := [
    ViolationData("2026-01-10", 12),
    ViolationData("2026-01-11", 15),
    ViolationData("2026-01-12", 9),
    ViolationData("2026-01-13", 18),
    ViolationData("2026-01-14", 14),
    ViolationData("2026-01-15", 11),
    ViolationData("2026-01-16", 8)
  ]

  const ComplianceByZone: seq<ComplianceData> := [
    ComplianceData("Assembly A", 92),
    ComplianceData("Welding B", 78),
    ComplianceData("Storage C", 85),
    ComplianceData("Loading D", 88),
    ComplianceData("Machinery E", 81)
  ]

  const ZoneRiskData: seq<ZoneRisk> := [
    ZoneRisk("zone-1", "Assembly Line A", SafeZone, 12, 15, 15),
    ZoneRisk("zone-2", "Welding Zone B", HighRisk, 8, 45, 15),
    ZoneRisk("zone-3", "Storage Area C", Moderate, 6, 75, 15),
    ZoneRisk("zone-4", "Loading Dock D", SafeZone, 10, 15, 55),
    ZoneRisk("zone-5", "Machinery Hall E", Moderate, 15, 45, 55),
    ZoneRisk("zone-6", "Quality Control F", SafeZone, 7, 75, 55)
  ]

  function WorkerCounts(zones: seq<ZoneRisk>): (r: seq<nat>)
    ensures |r| == |zones|
    ensures forall i :: 0 <= i < |r| ==> r[i] == zones[i].workersCount
  {
    seq(|zones|, i requires 0 <= i < |zones| => zones[i].workersCount)
  }

  function ComplianceValues(data: seq<ComplianceData>): (r: seq<nat>)
    ensures |r| == |data|
    ensures forall i :: 0 <= i < |r| ==> r[i] == data[i].compliance
  {
    seq(|data|, i requires 0 <= i < |data| => data[i].compliance)
  }

  /** `r` is the integer nearest the mean of `values`, a mean exactly halfway
      between two integers going to the upper one: `r - 1/2 <= mean < r + 1/2`. */
  predicate NearestToMean(r: int, values: seq<nat>) {
    |values| * (2 * r - 1) <= 2 * Sum(values) < |values| * (2 * r + 1)
  }

  /** `Math.round(sum / n)` for a non-empty list of naturals. */
  function RoundedMean(values: seq<nat>): (r: int)
    requires |values| > 0
    ensures NearestToMean(r, values)
  {
    var n := |values|;
    var q := (2 * Sum(values) + n) / (2 * n);
    assert 2 * n * q <= 2 * Sum(values) + n < 2 * n * q + 2 * n;
    q
  }

  datatype DashboardStats = DashboardStats(
    totalWorkers: nat,
    ppeCompliance: int,
    violationsToday: nat,
    criticalAlerts: nat)

  function CountSeverity(alerts: seq<Alert>, s: Severity): nat {
    Count(alerts, (a: Alert) => a.severity == s)
  }

  /** `getDashboardStats()` over given fixture arrays. The critical count comes
      from a fresh batch of alerts, drawn with `draws`, not from any list a view
      is showing. The source reads the last series entry and divides by the
      number of zones, so both arrays are non-empty. */
  function GetDashboardStats(
    zones: seq<ZoneRisk>, compliance: seq<ComplianceData>, series: seq<ViolationData>,
    draws: seq<AlertDraw>, now: int): (r: DashboardStats)
    requires |compliance| > 0 && |series| > 0
    requires |draws| == BatchSize && ValidDraws(draws)
    ensures r.totalWorkers == Sum(WorkerCounts(zones))
    ensures NearestToMean(r.ppeCompliance, ComplianceValues(compliance))
    ensures r.violationsToday == series[|series| - 1].violations
    ensures r.criticalAlerts == CountSeverity(Batch(draws, now), High)
    ensures r.criticalAlerts <= BatchSize
  {
    var alerts := GenerateAlerts(draws, now);
    CountPermutation(alerts, Batch(draws, now), (a: Alert) => a.severity == High);
    DashboardStats(
      Sum(WorkerCounts(zones)),
      RoundedMean(ComplianceValues(compliance)),
      series[|series| - 1].violations,
      CountSeverity(alerts, High))
  }

  /** The dashboard over the shipped fixtures: 58 workers, 85% compliance,
      8 violations today and between 0 and 15 critical alerts. */
  lemma FixtureDashboardStats(draws: seq<AlertDraw>, now: int)
    requires |draws| == BatchSize && ValidDraws(draws)
    ensures var r := GetDashboardStats(ZoneRiskData, ComplianceByZone, ViolationsOverTime, draws, now);
      && r.totalWorkers == 58
      && r.ppeCompliance == 85
      && r.violationsToday == 8
      && 0 <= r.criticalAlerts <= 15
  {
    FixtureWorkers();
    FixtureComplianceSum();
  }

  lemma FixtureWorkers()
    ensures Sum(WorkerCounts(ZoneRiskData)) == 58
  {
    var w: seq<nat> := [12, 8, 6, 10, 15, 7];
    assert WorkerCounts(ZoneRiskData) == w;
    assert w[6..] == [];
    assert Sum(w[5..]) == 7;
    assert Sum(w[4..]) == 22;
    assert Sum(w[3..]) == 32;
    assert Sum(w[2..]) == 38;
    assert Sum(w[1..]) == 46;
    assert w[0..] == w;
  }

  /** The zone compliances add up to 424, whose mean over five zones is 84.8. */
  lemma FixtureComplianceSum()
    ensures Sum(ComplianceValues(ComplianceByZone)) == 424
  {
    var c: seq<nat> := [92, 78, 85, 88, 81];
    assert ComplianceValues(ComplianceByZone) == c;
    assert c[5..] == [];
    assert Sum(c[4..]) == 81;
    assert Sum(c[3..]) == 169;
    assert Sum(c[2..]) == 254;
    assert Sum(c[1..]) == 332;
    assert c[0..] == c;
  }

  /** Two calls differ at most in the critical count: the other three fields
      come from fixtures only. */
  lemma DashboardStatsDeterministic(
    zones: seq<ZoneRisk>, compliance: seq<ComplianceData>, series: seq<ViolationData>,
    draws1: seq<AlertDraw>, now1: int, draws2: seq<AlertDraw>, now2: int)
    requires |compliance| > 0 && |series| > 0
    requires |draws1| == BatchSize && ValidDraws(draws1)
    requires |draws2| == BatchSize && ValidDraws(draws2)
    ensures var r1 := GetDashboardStats(zones, compliance, series, draws1, now1);
      var r2 := GetDashboardStats(zones, compliance, series, draws2, now2);
      && r1.totalWorkers == r2.totalWorkers
      && r1.ppeCompliance == r2.ppeCompliance
      && r1.violationsToday == r2.violationsToday
  {
  }

  // ---------------------------------------------------------------------------
  // Employee and camera fixtures

  const MillisPerHour: int := 60 * 60 * 1000
  const MillisPerDay: int := 24 * MillisPerHour

  /** `mockEmployees`, whose violation times are relative to the moment the
      module was loaded (`Date.now()`), given here as `loadedAt`. */
  function MockEmployees(loadedAt: int): seq<Employee> {
    [
      Employee("EMP-001", "John Anderson", true, true, true, true, 2, Some(loadedAt - 2 * MillisPerDay)),
      Employee("EMP-002", "Sarah Martinez", true, false, true, true, 5, Some(loadedAt - 3 * MillisPerHour)),
      Employee("EMP-003", "Michael Chen", false, true, true, true, 8, Some(loadedAt - 30 * 60 * 1000)),
      Employee("EMP-004", "Emily Johnson", true, true, true, true, 0, None),
      Employee("EMP-005", "David Wilson", true, true, false, true, 3, Some(loadedAt - 5 * MillisPerHour)),
      Employee("EMP-006", "Lisa Thompson", true, true, true, false, 1, Some(loadedAt - MillisPerDay)),
      Employee("EMP-007", "Robert Garcia", true, true, true, true, 0, None),
      Employee("EMP-008", "Jennifer Lee", false, false, true, true, 12, Some(loadedAt - 15 * 60 * 1000))
    ]
  }

  const MockCameraFeeds: seq<CameraFeed> := [
    CameraFeed("CAM-1", "Assembly Line A - North", "Assembly Line A", Active, [
      Detection(Person, Safe, 0.95, BBox(120.0, 80.0, 100.0, 180.0)),
      Detection(Helmet, Safe, 0.92, BBox(135.0, 75.0, 70.0, 50.0)),
      Detection(Goggles, Safe, 0.88, BBox(145.0, 95.0, 50.0, 20.0))
    ]),
    CameraFeed("CAM-2", "Welding Zone B - East", "Welding Zone B", Active, [
      Detection(Person, Warning, 0.93, BBox(200.0, 100.0, 90.0, 170.0)),
      Detection(Helmet, Warning, 0.45, BBox(215.0, 95.0, 60.0, 45.0)),
      Detection(Fire, Critical, 0.87, BBox(50.0, 200.0, 80.0, 60.0))
    ]),
    CameraFeed("CAM-3", "Storage Area C - West", "Storage Area C", Active, [
      Detection(Person, Critical, 0.96, BBox(150.0, 90.0, 95.0, 175.0)),
      Detection(Smoke, Critical, 0.76, BBox(280.0, 50.0, 120.0, 150.0))
    ]),
    CameraFeed("CAM-4", "Loading Dock D - South", "Loading Dock D", Active, [
      Detection(Person, Safe, 0.94, BBox(100.0, 70.0, 105.0, 185.0)),
      Detection(Helmet, Safe, 0.91, BBox(115.0, 65.0, 75.0, 55.0)),
      Detection(Shoes, Safe, 0.89, BBox(110.0, 230.0, 85.0, 25.0))
    ]),
    CameraFeed("CAM-5", "Machinery Hall E - Center", "Machinery Hall E", Active, [
      Detection(Person, Warning, 0.92, BBox(180.0, 95.0, 88.0, 165.0)),
      Detection(Mask, Warning, 0.52, BBox(195.0, 115.0, 58.0, 35.0))
    ]),
    CameraFeed("CAM-6", "Assembly Line A - South", "Assembly Line A", Active, [
      Detection(Person, Safe, 0.97, BBox(130.0, 85.0, 92.0, 178.0)),
      Detection(Helmet, Safe, 0.94, BBox(142.0, 80.0, 68.0, 48.0))
    ])
  ]
}
