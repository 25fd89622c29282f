/** The alerts view: the list that a five-second timer extends, the severity
    filter, the per-severity counts and the timestamp caption. */
module AlertsPanel {
  import opened Wrappers
  import opened Seqs
  import opened RelativeTime
  import opened MockData

  /** The list keeps at most this many alerts. */
  const MaxAlerts: nat := 20

  /** A tick adds an alert only when its draw exceeds this. */
  const ArrivalThreshold: real := 0.7

  function Min(a: int, b: int): int {
    if a <= b then a else b
  }

  /** One timer tick. `p` is the tick's `Math.random()` draw; `draws` and
      `now` feed the fresh `generateAlerts()` batch whose first (newest)
      alert is prepended, after which the list is cut to twenty. */
  function Tick(prev: seq<Alert>, p: real, draws: seq<AlertDraw>, now: int): (r: seq<Alert>)
    requires |draws| == BatchSize && ValidDraws(draws)
    ensures p <= ArrivalThreshold ==> r == prev
    ensures p > ArrivalThreshold ==>
      && |r| == Min(|prev| + 1, MaxAlerts)
      && r[0] == GenerateAlerts(draws, now)[0]
      && r[1..] == prev[..Min(|prev|, MaxAlerts - 1)]
  {
    if p > ArrivalThreshold then
      var newest := GenerateAlerts(draws, now)[0];
      var r := ([newest] + prev)[..Min(|prev| + 1, MaxAlerts)];
      assert r[1..] == prev[..Min(|prev|, MaxAlerts - 1)];
      r
    else prev
  }

  /** A tick never grows a list past twenty, and what it adds is the newest
      alert of its batch and a well-formed one. */
  lemma TickBounded(prev: seq<Alert>, p: real, draws: seq<AlertDraw>, now: int)
    requires |draws| == BatchSize && ValidDraws(draws)
    requires |prev| <= MaxAlerts
    ensures |Tick(prev, p, draws, now)| <= MaxAlerts
    ensures p > ArrivalThreshold ==>
      var batch := GenerateAlerts(draws, now);
      var head := Tick(prev, p, draws, now)[0];
      && (forall a :: a in batch ==> a.timestamp <= head.timestamp)
      && WellFormedAlert(head, now)
  {
    if p > ArrivalThreshold {
      var batch := GenerateAlerts(draws, now);
      GeneratedAlertsWellFormed(draws, now);
      assert batch[0] in batch;
      forall a | a in batch
        ensures a.timestamp <= batch[0].timestamp
      {
        var j :| 0 <= j < |batch| && batch[j] == a;
      }
    }
  }

  // ---------------------------------------------------------------------------
  // Filter and counts

  datatype SeverityFilter = All | Only(severity: Severity)

  /** `filteredAlerts`. */
  function FilteredAlerts(alerts: seq<Alert>, f: SeverityFilter): (r: seq<Alert>)
    ensures f == All ==> r == alerts
    ensures f.Only? ==> IsSubsequence(r, alerts)
    ensures f.Only? ==> forall a :: a in r <==> a in alerts && a.severity == f.severity
    ensures f.Only? ==> forall a :: multiset(r)[a] == if a.severity == f.severity then multiset(alerts)[a] else 0
  {
    match f
    case All => alerts
    case Only(s) =>
      FilterIsSubsequence(alerts, (a: Alert) => a.severity == s);
      FilterMultiset(alerts, (a: Alert) => a.severity == s);
      Filter(alerts, (a: Alert) => a.severity == s)
  }

  datatype AlertCounts = AlertCounts(all: nat, high: nat, medium: nat, low: nat)

  /** `alertCounts`: each severity card counts the rows its filter shows, and
      the three severities account for every alert. */
  function CountAlerts(alerts: seq<Alert>): (r: AlertCounts)
    ensures r.all == |alerts|
    ensures r.high == |FilteredAlerts(alerts, Only(High))|
    ensures r.medium == |FilteredAlerts(alerts, Only(Medium))|
    ensures r.low == |FilteredAlerts(alerts, Only(Low))|
    ensures r.high + r.medium + r.low == r.all
  {
    var high := (a: Alert) => a.severity == High;
    var medium := (a: Alert) => a.severity == Medium;
    var low := (a: Alert) => a.severity == Low;
    CountPartition3(alerts, high, medium, low);
    AlertCounts(|alerts|, Count(alerts, high), Count(alerts, medium), Count(alerts, low))
  }

  // ---------------------------------------------------------------------------
  // Timestamp caption

  /** The bucket `formatTimestamp` picks. `localeDate` stands for
      `date.toLocaleDateString()`. */
  function ClassifyTimestamp(now: int, at: int, localeDate: string): (e: Elapsed)
    ensures var d := DiffMinutes(now, at);
      && (d < 1 <==> e == JustNow)
      && (1 <= d < 60 <==> e == Minutes(d))
      && (60 <= d < 1440 <==> e.Hours?)
      && (e.Hours? ==> 1 <= e.n <= 23 && 60 * e.n <= d < 60 * (e.n + 1))
      && (1440 <= d <==> e == OnDate(localeDate))
  {
    var d := DiffMinutes(now, at);
    if d < 1 then JustNow
    else if d < 60 then Minutes(d)
    else if d < 1440 then Hours(d / 60)
    else OnDate(localeDate)
  }

  /** `formatTimestamp`. */
  function FormatTimestamp(now: int, at: int, localeDate: string): string {
    Render(ClassifyTimestamp(now, at, localeDate))
  }

  /** Below one day the caption reads back as its bucket. */
  lemma FormatTimestampReadsBack(now: int, at: int, localeDate: string)
    requires DiffMinutes(now, at) < 1440
    ensures Parse(FormatTimestamp(now, at, localeDate)) == Some(ClassifyTimestamp(now, at, localeDate))
  {
    ParseRender(ClassifyTimestamp(now, at, localeDate));
  }

  /** Read at the moment it was generated, an alert is captioned "Just now",
      in minutes or as "1h ago", never with a date: it is at most 119 minutes
      old. */
  lemma FreshAlertCaption(draws: seq<AlertDraw>, now: int, a: Alert, localeDate: string)
    requires |draws| == BatchSize && ValidDraws(draws)
    requires a in GenerateAlerts(draws, now)
    ensures var e := ClassifyTimestamp(now, a.timestamp, localeDate);
      e == JustNow || (e.Minutes? && 1 <= e.n < 60) || e == Hours(1)
  {
    GeneratedAlertsWellFormed(draws, now);
    var m :| 0 <= m < WindowMinutes && a.timestamp == MinutesBefore(now, m);
    assert DiffMinutes(now, a.timestamp) == m;
  }
}
