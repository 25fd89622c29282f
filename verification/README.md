# SafetyVision in Dafny

SafetyVision is a workplace-safety dashboard. The web front end shows:

- **Alerts.** A list of generated PPE (personal protective equipment) and hazard alerts. A timer keeps extending it, and it can be filtered by severity.
- **Employee records.** A searchable table with each employee's PPE status and the time of their last violation.
- **Live monitoring.** A camera-feed view whose fixture detections jitter on a timer.
- **Live CCTV.** A webcam view that overlays a simulated frame of detections on every animation frame.

A separate Python dashboard turns tracked detections from a video into per-frame metrics:

- persons;
- persons without a helmet;
- persons without a mask;
- hazards;
- critical risks.

This project models that logic as pure Dafny functions and methods and proves what each one promises. Wherever the program reads the world, the model takes a parameter instead:

| In the program | In the model |
|---|---|
| `Math.random()` | explicit draws: `AlertDraw`, `JitterDraw`, `FrameDraws` |
| `Date.now()` and `new Date()` | a millisecond clock `now` |
| `toLocaleDateString()` | a given string |
| the sine/cosine person positions | `Positions` |
| `getUserMedia` | `Acquisition` |
| whether the `<video>` ref is attached | a boolean |
| the detector's output | a sequence of detections |

Modules, one per file:

- `Wrappers` (wrappers.dfy): `Option`, which stands in for `null` and for `find` coming back empty.
- `Seqs` (seqs.dfy): `Array.prototype.filter`, counting and summing, plus the lemmas relating them.
- `Text` (text.dfy):
  - ASCII lower-casing;
  - `includes`;
  - decimal rendering of numbers, with its parser.
- `RelativeTime` (relative_time.dfy): minute differences and the "`N`m ago" family of captions, with their parser.
- `MockData` (mock_data.dfy):
  - the data types;
  - `generateAlerts`;
  - the fixtures;
  - `getDashboardStats`.
- `EmployeeRecords` (employee_records.dfy):
  - search;
  - PPE status and badge;
  - the last-violation caption;
  - the summary cards.
- `AlertsPanel` (alerts_panel.dfy):
  - the five-second timer tick;
  - the severity filter and counts;
  - the timestamp caption.
- `LiveMonitoring` (live_monitoring.dfy):
  - the jitter timer;
  - camera selection;
  - the counts;
  - the feed status.
- `LiveCctv` (live_cctv.dfy):
  - the per-frame detection generator and its counts;
  - the start/stop stream lifecycle.
- `PpeRisk` (ppe_risk.dfy):
  - box centres and distances;
  - the person dictionary and PPE items;
  - PPE-to-person mapping;
  - risk counting;
  - the metrics of the Python dashboard.

## Model

| member | source | states |
|---|---|---|
| Text.Lower | SafetyVision/src/app/components/EmployeeRecords.tsx:15-16 | lower-casing keeps the length, maps each character through the ASCII case map and leaves no upper-case letter |
| Text.IncludesIff | SafetyVision/src/app/components/EmployeeRecords.tsx:15-16 | `includes` holds exactly when the term occurs at some index of the text |
| Text.NatRoundTrip | SafetyVision/src/app/data/mockData.ts:88 | the decimal text of a natural number parses back to that number, so `alert-${i}` determines `i` |
| Text.IntRoundTrip | SafetyVision/src/app/components/EmployeeRecords.tsx:26 | the decimal text of any integer, negative ones included, parses back to it |
| RelativeTime.DiffMinutes | SafetyVision/src/app/components/EmployeeRecords.tsx:22-24 | the minute count is the floor of the millisecond difference over 60000: `m*60000 <= now-at < (m+1)*60000` |
| RelativeTime.ParseRender | SafetyVision/src/app/components/AlertsPanel.tsx:64-66 | every caption except a locale date reads back as the elapsed value it shows |
| RelativeTime.RenderInjective | SafetyVision/src/app/components/EmployeeRecords.tsx:26-28 | two different non-date elapsed values never produce the same caption |
| MockData.MakeAlert | SafetyVision/src/app/data/mockData.ts:82-95 | iteration `i` builds alert `alert-i`. Its timestamp is a whole number of minutes, 0 to 119, before `now`. Its camera is one of CAM-1 to CAM-12. Its zone, violation type and severity come from the fixed lists. Its description is "type in Z" for some listed zone Z. |
| MockData.SortNewestFirst | SafetyVision/src/app/data/mockData.ts:98 | sorting returns a permutation of its input (same length, same multiset) |
| MockData.SortOrders | SafetyVision/src/app/data/mockData.ts:98 | the sorted alerts are newest first (timestamps never increase along the list) |
| MockData.SortKeepsIdsDistinct | SafetyVision/src/app/data/mockData.ts:98 | sorting an id-distinct list keeps ids distinct |
| MockData.AlertIdInjective | SafetyVision/src/app/data/mockData.ts:88 | different loop indices give different alert ids |
| MockData.GenerateAlerts | SafetyVision/src/app/data/mockData.ts:65-99 | `generateAlerts` returns exactly 15 alerts, newest first, a permutation of the 15 the loop built |
| MockData.GeneratedAlertsWellFormed | SafetyVision/src/app/data/mockData.ts:82-98 | every returned alert is well formed as above and not in the future |
| MockData.GeneratedAlertIds | SafetyVision/src/app/data/mockData.ts:82-98 | the returned ids are pairwise distinct, and as a set they are exactly `alert-0` to `alert-14` |
| MockData.RoundedMean | SafetyVision/src/app/data/mockData.ts:295-297 | `Math.round(sum / n)` is the integer nearest the mean, a half rounding up |
| MockData.GetDashboardStats | SafetyVision/src/app/data/mockData.ts:293-307 | total workers is the sum of the zones' worker counts. Compliance is the rounded mean of the zone compliances. Violations today is the last day's count. Critical alerts is the number of High-severity alerts in the freshly generated batch, which sorting does not change, so at most 15. |
| MockData.FixtureDashboardStats | SafetyVision/src/app/data/mockData.ts:253-307 | over the shipped fixtures the dashboard shows 58 workers, 85% compliance, 8 violations today and 0 to 15 critical alerts |
| MockData.DashboardStatsDeterministic | SafetyVision/src/app/data/mockData.ts:293-299 | two calls can differ only in the critical-alert count; the other fields depend on the fixtures alone |
| EmployeeRecords.FilteredEmployees | SafetyVision/src/app/components/EmployeeRecords.tsx:14-17 | the search result keeps table order, and an employee is in it exactly when they are in the table and match the term. Every copy of a matching row is kept and no copy of another row, so the "Showing N of M" count is exact. |
| EmployeeRecords.MatchesSearchIff | SafetyVision/src/app/components/EmployeeRecords.tsx:14-17 | an employee matches exactly when the lower-cased term occurs at some position of the lower-cased name or id |
| EmployeeRecords.EmptySearchShowsAll | SafetyVision/src/app/components/EmployeeRecords.tsx:14-17 | an empty search term shows the whole table unchanged |
| EmployeeRecords.SearchIgnoresTermCase | SafetyVision/src/app/components/EmployeeRecords.tsx:14-17 | terms that differ only in ASCII letter case give the same result |
| EmployeeRecords.GetPpeStatus | SafetyVision/src/app/components/EmployeeRecords.tsx:31-35 | the status counts set flags out of 4 as a percentage that is 25 times the count, and it is 100 exactly when all four flags are set |
| EmployeeRecords.StatusBadge | SafetyVision/src/app/components/EmployeeRecords.tsx:37-41 | the badge is full exactly at 100, partial exactly from 75 below 100, non-compliant otherwise |
| EmployeeRecords.EmployeeBadge | SafetyVision/src/app/components/EmployeeRecords.tsx:31-41 | an employee's badge is full with 4 flags, partial with exactly 3, non-compliant with 2 or fewer |
| EmployeeRecords.ClassifyLastViolation | SafetyVision/src/app/components/EmployeeRecords.tsx:19-29 | no date gives Never. Under 60 minutes gives the minute count itself, 0 and negatives included. Under 1440 gives whole hours, 1 to 23. Otherwise it gives whole days, each bucket bracketing the difference. |
| EmployeeRecords.FormatLastViolationReadsBack | SafetyVision/src/app/components/EmployeeRecords.tsx:19-29 | the caption reads back as its bucket, and it is "Never" exactly when there is no violation date |
| EmployeeRecords.Summarize | SafetyVision/src/app/components/EmployeeRecords.tsx:56-85 | the fully compliant and the non-compliant cards add up to the total. Fully compliant counts the employees with all four flags. Violations is the sum of the per-employee totals. |
| EmployeeRecords.FixtureSummary | SafetyVision/src/app/components/EmployeeRecords.tsx:56-85 | over the shipped employees the cards read 8 employees, 3 fully compliant, 5 non-compliant and 31 violations |
| AlertsPanel.Tick | SafetyVision/src/app/components/AlertsPanel.tsx:14-20 | a draw of at most 0.7 leaves the list alone. Otherwise the first alert of a fresh batch is prepended and the list is cut to 20, the old alerts keeping their order. |
| AlertsPanel.TickBounded | SafetyVision/src/app/components/AlertsPanel.tsx:16-18 | a list of at most 20 alerts stays at most 20, and the prepended alert is the newest of its batch and well formed |
| AlertsPanel.FilteredAlerts | SafetyVision/src/app/components/AlertsPanel.tsx:25-27 | "all" shows the list unchanged. A severity shows, in order, exactly the alerts of that severity, each as many times as it occurs in the list. |
| AlertsPanel.CountAlerts | SafetyVision/src/app/components/AlertsPanel.tsx:70-75 | each severity count equals the length of that filter's list, and the three add up to the total |
| AlertsPanel.ClassifyTimestamp | SafetyVision/src/app/components/AlertsPanel.tsx:59-68 | under a minute, including the future, gives Just now. Under an hour gives minutes, under a day gives 1 to 23 hours, otherwise the locale date. |
| AlertsPanel.FormatTimestampReadsBack | SafetyVision/src/app/components/AlertsPanel.tsx:59-68 | below one day the caption reads back as its bucket |
| AlertsPanel.FreshAlertCaption | SafetyVision/src/app/components/AlertsPanel.tsx:59-68 | read when it is generated, an alert is captioned Just now, in minutes or "1h ago", never with a date |
| LiveMonitoring.ClampConfidence | SafetyVision/src/app/components/LiveMonitoring.tsx:32 | the clamped confidence lies in [0.65, 0.99]. Values inside the band are kept and values outside go to the nearer end. |
| LiveMonitoring.ClampNonExpanding | SafetyVision/src/app/components/LiveMonitoring.tsx:32 | clamping never moves two confidences further apart |
| LiveMonitoring.JitterTick | SafetyVision/src/app/components/LiveMonitoring.tsx:21-35 | a tick keeps count, kind, status and box size. With draws in [0,1) each box moves by at most 1.5 per axis, and by strictly less than 1.5 in the positive direction. Each confidence ends in the band, at most 0.025 from its clamped old value. |
| LiveMonitoring.FindCameraIndex | SafetyVision/src/app/components/LiveMonitoring.tsx:58 | `find` returns the first camera with the id, or nothing exactly when no camera has it |
| LiveMonitoring.HandleCameraChange | SafetyVision/src/app/components/LiveMonitoring.tsx:57-63 | an unknown id changes nothing. A known id selects that camera and resets the detections to its fixture list. |
| LiveMonitoring.SelectWeldingCamera | SafetyVision/src/app/components/LiveMonitoring.tsx:57-63 | selecting CAM-2 shows its three fixture detections: person and helmet at warning, fire at critical |
| LiveMonitoring.WeldingHelmetLifted | SafetyVision/src/app/components/LiveMonitoring.tsx:28-32 | one tick lifts CAM-2's 0.45 helmet confidence to exactly 0.65 |
| LiveMonitoring.ComputeStats | SafetyVision/src/app/components/LiveMonitoring.tsx:41-54 | each of the safe, warning and critical cards is the number of detections with that status (`filter(…).length`). The three add up to the total, and each is zero exactly when no detection has that status. |
| LiveMonitoring.FeedStatus | SafetyVision/src/app/components/LiveMonitoring.tsx:66-70 | critical exactly when some detection is critical. Warning exactly when none is critical and some is warning. Safe exactly when all are safe. |
| LiveMonitoring.FeedStatusFromCounts | SafetyVision/src/app/components/LiveMonitoring.tsx:41-70 | the status badge agrees with the count cards |
| LiveMonitoring.JitterKeepsStatus | SafetyVision/src/app/components/LiveMonitoring.tsx:21-54 | a jitter tick changes neither the counts nor the feed status |
| LiveCctv.HelmetEntry | SafetyVision/src/app/components/LiveCCTV.tsx:87-113 | the helmet slot is `helmet-1`/safe, or `no-helmet-1`/critical at 0.72, and it is critical exactly when the draw is at most 0.3 |
| LiveCctv.OptionalEntries | SafetyVision/src/app/components/LiveCCTV.tsx:115-204 | the entries after the helmet slot number at most 5 and carry only the optional ids. None is critical, and the only possible warning is `no-goggles-1`, at 0.68 and only when the goggles draw is at most 0.4. |
| LiveCctv.OptionalPresence | SafetyVision/src/app/components/LiveCCTV.tsx:115-173 | among the optional entries, `vest-1` is present exactly when the vest draw exceeds 0.2, and `goggles-1` exactly when the goggles draw exceeds 0.4. `no-goggles-1` is present exactly when the goggles draw is at most 0.4 and its own draw exceeds 0.5, and `mask-1` exactly when the mask draw exceeds 0.5. |
| LiveCctv.BuildFrame | SafetyVision/src/app/components/LiveCCTV.tsx:69-204 | a frame has 2 to 7 entries. Person 1 comes first, safe, and the helmet slot second: `helmet-1` safe or `no-helmet-1` critical at 0.72. Later entries carry only the optional ids, and they are exactly the optional entries of the same draws. |
| LiveCctv.FrameHeadPresence | SafetyVision/src/app/components/LiveCCTV.tsx:71-113 | person 1 is in every frame. `helmet-1` is present exactly when the helmet draw exceeds 0.3, and `no-helmet-1` exactly when it does not. |
| LiveCctv.FrameOptionalPresence | SafetyVision/src/app/components/LiveCCTV.tsx:115-173 | in the whole frame, the vest, goggles, missing-goggles and mask entries each appear exactly when their draws cross the thresholds 0.2, 0.4, (at most 0.4 and above 0.5) and 0.5 |
| LiveCctv.OptionalIdsDistinct | SafetyVision/src/app/components/LiveCCTV.tsx:115-204 | no two optional entries share an id |
| LiveCctv.FrameIdsDistinct | SafetyVision/src/app/components/LiveCCTV.tsx:69-204 | no two entries of a frame share an id |
| LiveCctv.FrameSecondPerson | SafetyVision/src/app/components/LiveCCTV.tsx:175-204 | `person-2` is present exactly when `helmet-2` is, exactly when the draw exceeds 0.5, and then they are the last two entries |
| LiveCctv.FrameAlarms | SafetyVision/src/app/components/LiveCCTV.tsx:87-157 | the only critical entry is the missing helmet. The only warning is the missing goggles, at 0.68 and only when the goggles draw is at most 0.4. |
| LiveCctv.FrameStats | SafetyVision/src/app/components/LiveCCTV.tsx:208-219 | the detection card is the frame length, and each status card is the number of entries with that status. The three status cards add up to the detection card. |
| LiveCctv.FrameStatusBounds | SafetyVision/src/app/components/LiveCCTV.tsx:87-219 | a frame has exactly one critical entry when the helmet draw is at most 0.3 and none otherwise, and at most one warning |
| LiveCctv.FrameConfidencesInUnit | SafetyVision/src/app/components/LiveCCTV.tsx:75-203 | with draws in [0,1) every confidence in a frame lies in [0,1] |
| LiveCctv.AllZeroFrame | SafetyVision/src/app/components/LiveCCTV.tsx:69-113 | with every draw zero the frame is just person 1 at 0.94 and the critical no-helmet entry |
| LiveCctv.StopStream | SafetyVision/src/app/components/LiveCCTV.tsx:21-34 | stopping ends streaming, releases the stream and empties the overlay. Statistics and the error message are left as they were. |
| LiveCctv.StartStream | SafetyVision/src/app/components/LiveCCTV.tsx:227-249 | a denied camera sets the error message and nothing else. A granted one clears the error and starts streaming with the stream held exactly when a video element is attached. The overlay and statistics are untouched. |
| LiveCctv.RunFrame | SafetyVision/src/app/components/LiveCCTV.tsx:55-221 | when not streaming a frame does nothing. When streaming it replaces the overlay with the frame built from the draws, and each count card becomes the number of that frame's entries with its status. The FPS reading, the error and the held stream are kept. |
| LiveCctv.StartWithVideoMounted | SafetyVision/src/app/components/LiveCCTV.tsx:227-249 | with the video element always mounted, a granted camera starts streaming and holds the stream; a denied one reports the error |
| LiveCctv.StartFromRenderedView | SafetyVision/src/app/components/LiveCCTV.tsx:237-242 | started from the not-streaming view as rendered, the view never starts streaming and never holds the stream |
| LiveCctv.StartButtonNeverStreams | SafetyVision/src/app/components/LiveCCTV.tsx:280-290 | from the view that shows the Start button, a granted camera only clears the error: the stream is not attached and streaming never starts |
| LiveCctv.StepKeepsConsistent | SafetyVision/src/app/components/LiveCCTV.tsx:21-249 | with the corrected start handler (video element mounted), start, stop and frame events keep the invariant. A stream is held exactly while streaming. The overlay is empty when not streaming. A non-empty overlay starts with person 1 and matches its count card. |
| LiveCctv.RunKeepsConsistent | SafetyVision/src/app/components/LiveCCTV.tsx:21-249 | with the corrected start handler, every sequence of events keeps that invariant |
| LiveCctv.RunLastStop | SafetyVision/src/app/components/LiveCCTV.tsx:21-34 | whatever happened before, a final stop leaves the view not streaming, with no stream and an empty overlay |
| LiveCctv.StartFramesStop | SafetyVision/src/app/components/LiveCCTV.tsx:21-249 | with the corrected start handler, a start, any frames and then a stop return to not streaming with no stream held and an empty overlay |
| LiveCctv.StepAsWrittenKeepsConsistent | SafetyVision/src/app/components/LiveCCTV.tsx:21-249 | with the start handler as written, start, stop and frame events keep the same invariant |
| LiveCctv.RunAsWrittenNeverStreams | SafetyVision/src/app/components/LiveCCTV.tsx:227-290 | with the start handler as written, no sequence of presses and frames from a view that is not streaming ever starts streaming, holds a stream or shows an overlay |
| PpeRisk.Center | test/dashboard.py:27-29 | the centre is the floor of the corner midpoint on each axis, rounding towards minus infinity like Python's `//` |
| PpeRisk.DistanceSymmetric | test/dashboard.py:31-34 | the distance and both proximity tests are symmetric in their two boxes |
| PpeRisk.DistanceSelf | test/dashboard.py:31-34 | a box is at distance zero from itself, so it is within any positive threshold of itself |
| PpeRisk.DistanceZeroIffSameCenter | test/dashboard.py:27-34 | the distance is zero exactly when the two centres coincide |
| PpeRisk.Upsert | test/dashboard.py:79-84 | assigning a key keeps ids distinct. A new key is appended; an existing key keeps its position. The entry gets the new box with both flags false, and other entries are unchanged. |
| PpeRisk.LastBox | test/dashboard.py:79-84 | the box recorded for a track id is that of the last person detection with that id; there is none exactly when no person detection has it |
| PpeRisk.CollectPersons | test/dashboard.py:66-84 | the dictionary has one entry per person track id and no other, with distinct ids. Each entry has the box of that id's last detection (the last box wins) and both flags false. |
| PpeRisk.CollectItems | test/dashboard.py:66-86 | the items are exactly the non-person detections as (class, box) pairs, and none of them is named "person" |
| PpeRisk.MapPpeToPerson | test/dashboard.py:90-95 | for one person, the helmet flag ends true exactly when it was true or some "helmet" item is within 80 pixels, and likewise for masks. The id and box are unchanged. |
| PpeRisk.MapPpeToPersons | test/dashboard.py:88-95 | mapping keeps the order, ids and boxes of the persons. A helmet flag ends true exactly when it was true or some "helmet" item is within 80 pixels, and likewise for masks, so flags only turn on. The result equals the reference definition that equips each person independently. |
| PpeRisk.CountRisks | test/dashboard.py:129-150 | the nested loops count exactly the risky (hazard, person) pairs that the recursive reference definition counts |
| PpeRisk.RiskTotalBound | test/dashboard.py:129-150 | the risk count is at most hazards times persons |
| PpeRisk.RiskTotalZeroIff | test/dashboard.py:129-150 | the risk count is zero exactly when no (hazard, person) pair is a fire or smoke within 150 pixels of an unmasked person |
| PpeRisk.MasksPreventRisks | test/dashboard.py:140 | if every person wears a mask, no risk is counted |
| PpeRisk.FrameMetrics | test/dashboard.py:65-158 | persons is the size of the person dictionary, and hazards is the hazard count. No-helmet and no-mask are the numbers of mapped persons still without that item. Risks is the number of risky (hazard, mapped person) pairs, as the recursive reference counts them. When nothing was tracked every person-based metric is zero, and in any frame no-helmet and no-mask never exceed persons and risks never exceed hazards times persons. |
| PpeRisk.MappedFlagsIffNear | test/dashboard.py:79-95 | in a tracked frame every person starts without PPE, so after the mapping a person has a helmet, or a mask, exactly when such an item lies within 80 pixels. Each person's box is the last one tracked for their id. |

## Left out

- Rendering is not modelled: JSX, styling, colours, badge variants and icons, `getStatusColor`, `BoundingBox`, the page switch in `App.tsx`, `Analytics.tsx`, `ZoneHeatmap.tsx` and `DashboardOverview.tsx`. They are presentation only.
- The `violationTypes` chart fixture (mockData.ts:273-280) is not modelled, because only the analytics charts read it.
- Timers are not modelled: `setInterval`, `setTimeout`, `requestAnimationFrame` and React effect scheduling. Each tick is one call of the corresponding function.
- The delayed (`setTimeout(…, 0)`) stats update in the live monitoring view is not modelled. The stats are a function of the current detections.
- The FPS counter of the CCTV view (LiveCCTV.tsx:58-66) is not modelled, because it reads `performance.now()`. The FPS field is carried through unchanged.
- `Math.random()`, `Date.now()`, `Math.sin`/`Math.cos` and `toLocaleDateString()` are not modelled. They are inputs, and a draw is required to lie in [0, 1) only by the lemmas that need it.
- The media API is not modelled: `getUserMedia`, stream tracks and `srcObject`. The outcome of `getUserMedia` is an input, and a held stream is a boolean.
- The console error logging on a camera failure is not modelled.
- Floating point is modelled with exact `real` arithmetic. For example, `(compliant / total) * 100` is exactly `25 * compliant`, and IEEE-754 rounding is not modelled.
- `toLowerCase` lower-cases the ASCII letters only; other Unicode case mappings are not modelled.
- Python's `math.dist` is decided exactly by comparing squared integer distances with the squared threshold, so no square root is modelled.
- The rest of the Python dashboard is I/O and foreign libraries: YOLO model loading and inference, OpenCV capture and drawing, Streamlit, pandas and plotly, and the frame number of each metrics row.
- MockData.SortNewestFirst: proves permutation and newest-first order, but not that alerts with equal timestamps keep their loop order, which the stable `Array.prototype.sort` also guarantees.
- AlertsPanel.Tick: makes no ordering claim about the list after a tick. The prepended alert comes from an independent fresh batch, so the source keeps neither newest-first order nor distinct ids.
- MockData.GetDashboardStats: requires non-empty compliance and violation series, as the fixtures are. With empty arrays the source would compute `NaN` or read past the end.
- LiveCctv.StopStream: the model follows the code, which leaves the statistics cards as they were when the camera stops (LiveCCTV.tsx:21-34).
- LiveCctv.StartFromRenderedView: a granted stream that is never attached is also never stopped. There is no stream object in the model, so that leak is not represented.

## Findings

| source | as written | input that shows it | evidently intended | confidence | as-written member | corrected member |
|---|---|---|---|---|---|---|
| SafetyVision/src/app/components/LiveCCTV.tsx:237 | `startStream` attaches the stream and sets `isStreaming` only when `videoRef.current` is set. The only `<video>` carrying that ref is rendered in the streaming branch (LiveCCTV.tsx:375-391). The Start button is shown only when not streaming (LiveCCTV.tsx:280-290). | Press "Start Camera" with camera access granted. The ref is null, so the view stays on the placeholder and the stream is dropped. | a granted camera starts streaming, with the video element mounted before the stream is attached | not executed | LiveCctv.StartFromRenderedView, LiveCctv.StartButtonNeverStreams, LiveCctv.RunAsWrittenNeverStreams | LiveCctv.StartWithVideoMounted |
