/** The per-frame logic of the Python dashboard: tracked detections become
    persons and PPE items, items within 80 pixels of a person set that
    person's helmet or mask flag, and every unmasked person within 150 pixels
    of a fire or smoke hazard counts as one critical risk. The detector
    output is an input: `tracked` says whether the tracker assigned ids, and
    each detection carries its class name and its integer box. */
module PpeRisk {
  import opened Wrappers
  import opened Seqs

  /** Corner coordinates `(x1, y1, x2, y2)` after `map(int, box)`. */
  datatype Box = Box(x1: int, y1: int, x2: int, y2: int)

  datatype Point = Point(x: int, y: int)

  /** `center`: the component-wise midpoint, rounded down as Python's `//`
      does (towards minus infinity, also for negative sums). */
  function Center(b: Box): (c: Point)
    ensures 2 * c.x <= b.x1 + b.x2 < 2 * c.x + 2
    ensures 2 * c.y <= b.y1 + b.y2 < 2 * c.y + 2
  {
    Point((b.x1 + b.x2) / 2, (b.y1 + b.y2) / 2)
  }

  /** The square of `distance`: comparing it with the square of a threshold
      decides `distance(a, b) < threshold` exactly. */
  function SqDistance(a: Box, b: Box): nat {
    var ca := Center(a);
    var cb := Center(b);
    (ca.x - cb.x) * (ca.x - cb.x) + (ca.y - cb.y) * (ca.y - cb.y)
  }

  /** `distance(a, b) < threshold`. */
  predicate Within(a: Box, b: Box, threshold: nat) {
    SqDistance(a, b) < threshold * threshold
  }

  const PpeDistance: nat := 80
  const HazardDistance: nat := 150

  /** The distance does not depend on the order of its arguments. */
  lemma DistanceSymmetric(a: Box, b: Box)
    ensures SqDistance(a, b) == SqDistance(b, a)
    ensures Within(a, b, PpeDistance) <==> Within(b, a, PpeDistance)
    ensures Within(a, b, HazardDistance) <==> Within(b, a, HazardDistance)
  {
  }

  /** A box is at distance zero from itself, so it is near itself for any
      positive threshold. */
  lemma DistanceSelf(a: Box, threshold: nat)
    requires threshold > 0
    ensures SqDistance(a, a) == 0
    ensures Within(a, a, threshold)
  {
  }

  /** Boxes with the same centre are at distance zero. */
  lemma DistanceZeroIffSameCenter(a: Box, b: Box)
    ensures SqDistance(a, b) == 0 <==> Center(a) == Center(b)
  {
    var ca, cb := Center(a), Center(b);
    var dx, dy := ca.x - cb.x, ca.y - cb.y;
    if SqDistance(a, b) == 0 {
      assert dx * dx >= 0 && dy * dy >= 0;
      SquareZero(dx);
      SquareZero(dy);
    }
  }

  lemma SquareZero(d: int)
    ensures d * d == 0 <==> d == 0
  {
    if d != 0 {
      assert d * d > 0 by {
        if d > 0 {
          assert d * d >= d;
        } else {
          assert d * d == (-d) * (-d);
          assert (-d) * (-d) >= -d;
        }
      }
    }
  }

  // ---------------------------------------------------------------------------
  // Persons and PPE items

  /** One tracked detection: its track id, class name and box. */
  datatype Detection = Detection(trackId: int, className: string, box: Box)

  /** A person entry of the `persons` dictionary, keyed by `id`. */
  datatype Person = Person(id: int, box: Box, helmet: bool, mask: bool)

  /** An entry of `ppe_items`: any tracked detection that is not a person. */
  datatype Item = Item(name: string, box: Box)

  predicate IsPerson(d: Detection) {
    d.className == "person"
  }

  predicate DistinctIds(ps: seq<Person>) {
    forall i, j :: 0 <= i < j < |ps| ==> ps[i].id != ps[j].id
  }

  predicate HasId(ps: seq<Person>, id: int) {
    exists q :: q in ps && q.id == id
  }

  /** The position of the entry with key `id`, if there is one. */
  function IndexOf(ps: seq<Person>, id: int): (r: Option<nat>)
    ensures r.Some? ==> r.value < |ps| && ps[r.value].id == id
    ensures r.None? <==> !HasId(ps, id)
  {
    if |ps| == 0 then None
    else if ps[0].id == id then Some(0)
    else
      match IndexOf(ps[1..], id)
      case Some(k) => Some(k + 1)
      case None =>
        assert forall q :: q in ps ==> q == ps[0] || q in ps[1..];
        None
  }

  /** `persons[id] = {...}`: a new key is appended; an existing key keeps its
      place and gets the new box with both flags cleared. */
  function Upsert(ps: seq<Person>, id: int, box: Box): (r: seq<Person>)
    requires DistinctIds(ps)
    ensures DistinctIds(r)
    ensures |r| == if HasId(ps, id) then |ps| else |ps| + 1
    ensures forall k :: 0 <= k < |ps| ==> r[k].id == ps[k].id
    ensures Person(id, box, false, false) in r
    ensures forall q :: q in r ==> q == Person(id, box, false, false) || (q in ps && q.id != id)
    ensures forall q :: q in ps && q.id != id ==> q in r
  {
    var entry := Person(id, box, false, false);
    match IndexOf(ps, id)
    case Some(k) =>
      var r := ps[k := entry];
      assert forall q :: q in r ==> q == entry || exists j :: 0 <= j < |ps| && j != k && q == ps[j];
      r
    case None =>
      ps + [entry]
  }

  /** The box of the last person detection with track id `id`. */
  function LastBox(ds: seq<Detection>, id: int): (r: Option<Box>)
    ensures r.None? <==> forall i :: 0 <= i < |ds| ==> !(IsPerson(ds[i]) && ds[i].trackId == id)
    ensures r.Some? ==> exists i :: (
      && 0 <= i < |ds| && IsPerson(ds[i]) && ds[i].trackId == id && ds[i].box == r.value
      && forall j :: i < j < |ds| ==> !(IsPerson(ds[j]) && ds[j].trackId == id))
  {
    if |ds| == 0 then None
    else
      var last := ds[|ds| - 1];
      if IsPerson(last) && last.trackId == id then Some(last.box)
      else
        var r := LastBox(ds[..|ds| - 1], id);
        assert forall i :: 0 <= i < |ds| - 1 ==> ds[..|ds| - 1][i] == ds[i];
        r
  }

  /** The `persons` dictionary built from one frame's detections, in key
      insertion order: one entry per person track id, holding the box of the
      last detection with that id and both flags false. */
  function CollectPersons(ds: seq<Detection>): (r: seq<Person>)
    ensures DistinctIds(r)
    ensures |r| <= |ds|
    ensures forall q :: q in r ==> !q.helmet && !q.mask && LastBox(ds, q.id) == Some(q.box)
    ensures forall id :: HasId(r, id) <==> LastBox(ds, id).Some?
  {
    if |ds| == 0 then []
    else
      var prev := CollectPersons(ds[..|ds| - 1]);
      var last := ds[|ds| - 1];
      if IsPerson(last) then Upsert(prev, last.trackId, last.box) else prev
  }

  /** `ppe_items`: the non-person detections, in detection order. */
  function CollectItems(ds: seq<Detection>): (r: seq<Item>)
    ensures |r| <= |ds|
    ensures forall it :: it in r ==> it.name != "person"
    ensures forall it :: it in r <==> exists i :: 0 <= i < |ds| && !IsPerson(ds[i]) && it == Item(ds[i].className, ds[i].box)
  {
    if |ds| == 0 then []
    else
      var prev := CollectItems(ds[..|ds| - 1]);
      var last := ds[|ds| - 1];
      assert forall i :: 0 <= i < |ds| - 1 ==> ds[..|ds| - 1][i] == ds[i];
      if IsPerson(last) then prev else prev + [Item(last.className, last.box)]
  }

  /** The two collections of a frame; both are empty when the tracker
      assigned no ids. */
  function Extract(tracked: bool, ds: seq<Detection>): (r: (seq<Person>, seq<Item>))
    ensures !tracked ==> r.0 == [] && r.1 == []
    ensures tracked ==> r.0 == CollectPersons(ds) && r.1 == CollectItems(ds)
  {
    if tracked then (CollectPersons(ds), CollectItems(ds)) else ([], [])
  }

  // ---------------------------------------------------------------------------
  // Mapping PPE to persons

  /** Some item called `name` among the first `n` lies within 80 pixels of `box`. */
  predicate NearAmong(box: Box, items: seq<Item>, name: string, n: int)
    requires 0 <= n <= |items|
  {
    exists j :: 0 <= j < n && items[j].name == name && Within(box, items[j].box, PpeDistance)
  }

  predicate Near(box: Box, items: seq<Item>, name: string) {
    NearAmong(box, items, name, |items|)
  }

  /** What the mapping makes of one person: a flag is set when it already was
      or when a matching item is near the person's box. */
  function Equip(p: Person, items: seq<Item>): Person {
    p.(helmet := p.helmet || Near(p.box, items, "helmet"),
       mask := p.mask || Near(p.box, items, "mask"))
  }

  /** What the mapping makes of every person, in dictionary order. */
  function EquipAll(persons: seq<Person>, items: seq<Item>): (r: seq<Person>)
    ensures |r| == |persons|
  {
    seq(|persons|, k requires 0 <= k < |persons| => Equip(persons[k], items))
  }

  /** The inner mapping loop for one person: every item is compared with the
      person's box; a nearby helmet sets the helmet flag, a nearby mask the
      mask flag. Nothing else changes and a flag is never cleared. */
  method MapPpeToPerson(p: Person, items: seq<Item>) returns (q: Person)
    ensures q.id == p.id && q.box == p.box
    ensures q.helmet <==> p.helmet || Near(p.box, items, "helmet")
    ensures q.mask <==> p.mask || Near(p.box, items, "mask")
  {
    q := p;
    var j := 0;
    while j < |items|
      invariant 0 <= j <= |items|
      invariant q.id == p.id && q.box == p.box
      invariant q.helmet <==> p.helmet || NearAmong(p.box, items, "helmet", j)
      invariant q.mask <==> p.mask || NearAmong(p.box, items, "mask", j)
    {
      if Within(q.box, items[j].box, PpeDistance) {
        if items[j].name == "helmet" {
          q := q.(helmet := true);
        }
        if items[j].name == "mask" {
          q := q.(mask := true);
        }
      }
      j := j + 1;
    }
  }

  /** The mapping loop over all persons, in dictionary order. */
  method MapPpeToPersons(persons: seq<Person>, items: seq<Item>) returns (r: seq<Person>)
    ensures |r| == |persons|
    ensures forall k :: 0 <= k < |r| ==> r[k].id == persons[k].id && r[k].box == persons[k].box
    ensures forall k :: 0 <= k < |r| ==> (r[k].helmet <==> persons[k].helmet || Near(persons[k].box, items, "helmet"))
    ensures forall k :: 0 <= k < |r| ==> (r[k].mask <==> persons[k].mask || Near(persons[k].box, items, "mask"))
    ensures r == EquipAll(persons, items)
  {
    r := [];
    var i := 0;
    while i < |persons|
      invariant 0 <= i <= |persons| && |r| == i
      invariant forall k :: 0 <= k < i ==> r[k].id == persons[k].id && r[k].box == persons[k].box
      invariant forall k :: 0 <= k < i ==> (r[k].helmet <==> persons[k].helmet || Near(persons[k].box, items, "helmet"))
      invariant forall k :: 0 <= k < i ==> (r[k].mask <==> persons[k].mask || Near(persons[k].box, items, "mask"))
    {
      var q := MapPpeToPerson(persons[i], items);
      r := r + [q];
      i := i + 1;
    }
    assert forall k :: 0 <= k < |r| ==> r[k] == EquipAll(persons, items)[k];
  }

  // ---------------------------------------------------------------------------
  // Hazards and risks

  /** One hazard detection: its class name and box. */
  datatype Hazard = Hazard(kind: string, box: Box)

  /** A (hazard, person) pair raises a critical risk: the hazard is fire or
      smoke, the person is within 150 pixels of it and wears no mask. */
  predicate IsRisk(h: Hazard, p: Person) {
    (h.kind == "fire" || h.kind == "smoke") && Within(p.box, h.box, HazardDistance) && !p.mask
  }

  /** The persons one hazard puts at risk. */
  function RisksOf(h: Hazard, persons: seq<Person>): nat {
    Count(persons, (p: Person) => IsRisk(h, p))
  }

  /** The number of risky (hazard, person) pairs. */
  function RiskTotal(hazards: seq<Hazard>, persons: seq<Person>): nat {
    if |hazards| == 0 then 0
    else RiskTotal(hazards[..|hazards| - 1], persons) + RisksOf(hazards[|hazards| - 1], persons)
  }

  /** There is at most one risk per (hazard, person) pair. */
  lemma {:induction false} RiskTotalBound(hazards: seq<Hazard>, persons: seq<Person>)
    ensures RiskTotal(hazards, persons) <= |hazards| * |persons|
  {
    if |hazards| > 0 {
      RiskTotalBound(hazards[..|hazards| - 1], persons);
      assert |hazards| * |persons| == (|hazards| - 1) * |persons| + |persons|;
    }
  }

  /** No risk is counted exactly when no (hazard, person) pair is risky. */
  lemma {:induction false} RiskTotalZeroIff(hazards: seq<Hazard>, persons: seq<Person>)
    ensures RiskTotal(hazards, persons) == 0 <==>
      forall h, p :: h in hazards && p in persons ==> !IsRisk(h, p)
  {
    if |hazards| > 0 {
      var init, h := hazards[..|hazards| - 1], hazards[|hazards| - 1];
      RiskTotalZeroIff(init, persons);
      CountZeroIffNone(persons, (p: Person) => IsRisk(h, p));
      assert forall x :: x in hazards <==> x in init || x == h;
    }
  }

  /** A person with a mask is never at risk, so a fully masked crew gives a
      count of zero whatever the hazards. */
  lemma MasksPreventRisks(hazards: seq<Hazard>, persons: seq<Person>)
    requires forall p :: p in persons ==> p.mask
    ensures RiskTotal(hazards, persons) == 0
  {
    RiskTotalZeroIff(hazards, persons);
  }

  /** The risk loop: for every hazard, every person is tested. */
  method CountRisks(hazards: seq<Hazard>, persons: seq<Person>) returns (n: nat)
    ensures n == RiskTotal(hazards, persons)
  {
    n := 0;
    var i := 0;
    while i < |hazards|
      invariant 0 <= i <= |hazards|
      invariant n == RiskTotal(hazards[..i], persons)
    {
      var h := hazards[i];
      var risky := (p: Person) => IsRisk(h, p);
      var j := 0;
      var m := 0;
      while j < |persons|
        invariant 0 <= j <= |persons|
        invariant m == Count(persons[..j], risky)
      {
        assert persons[..j + 1] == persons[..j] + [persons[j]];
        CountAppend(persons[..j], [persons[j]], risky);
        if IsRisk(h, persons[j]) {
          m := m + 1;
        }
        j := j + 1;
      }
      assert persons[..j] == persons;
      assert hazards[..i + 1][..i] == hazards[..i];
      n := n + m;
      i := i + 1;
    }
    assert hazards[..i] == hazards;
  }

  // ---------------------------------------------------------------------------
  // Metrics

  /** One row of `metrics_data`, without the frame number. */
  datatype Metrics = Metrics(persons: nat, noHelmet: nat, noMask: nat, hazards: nat, risks: nat)

  predicate LacksHelmet(p: Person) {
    !p.helmet
  }

  predicate LacksMask(p: Person) {
    !p.mask
  }

  /** The persons of a frame after the PPE mapping. */
  function MappedPersons(tracked: bool, ds: seq<Detection>): seq<Person> {
    var (persons, items) := Extract(tracked, ds);
    EquipAll(persons, items)
  }

  /** In a tracked frame every person starts with no PPE, so after the
      mapping a person wears a helmet (a mask) exactly when a helmet (a mask)
      lies within 80 pixels of them, and each person's box is the last one
      the tracker reported for their id. */
  lemma MappedFlagsIffNear(ds: seq<Detection>)
    ensures forall q :: q in MappedPersons(true, ds) ==>
      && (q.helmet <==> Near(q.box, CollectItems(ds), "helmet"))
      && (q.mask <==> Near(q.box, CollectItems(ds), "mask"))
      && LastBox(ds, q.id) == Some(q.box)
  {
    var persons := CollectPersons(ds);
    var mapped := MappedPersons(true, ds);
    forall q | q in mapped
      ensures q.helmet <==> Near(q.box, CollectItems(ds), "helmet")
      ensures q.mask <==> Near(q.box, CollectItems(ds), "mask")
      ensures LastBox(ds, q.id) == Some(q.box)
    {
      var k :| 0 <= k < |mapped| && mapped[k] == q;
      assert persons[k] in persons;
    }
  }

  /** The per-frame metrics: the persons of the frame, those of them still
      without a helmet and without a mask after the mapping, the hazards, and
      the risky (hazard, person) pairs. */
  method FrameMetrics(tracked: bool, ds: seq<Detection>, hazards: seq<Hazard>) returns (m: Metrics)
    ensures m.persons == |Extract(tracked, ds).0|
    ensures m.noHelmet == Count(MappedPersons(tracked, ds), LacksHelmet)
    ensures m.noMask == Count(MappedPersons(tracked, ds), LacksMask)
    ensures m.hazards == |hazards|
    ensures m.risks == RiskTotal(hazards, MappedPersons(tracked, ds))
    ensures !tracked ==> m.persons == 0 && m.noHelmet == 0 && m.noMask == 0 && m.risks == 0
    ensures m.noHelmet <= m.persons && m.noMask <= m.persons
    ensures m.risks <= m.hazards * m.persons
  {
    var (persons, items) := Extract(tracked, ds);
    var mapped := MapPpeToPersons(persons, items);
    var risks := CountRisks(hazards, mapped);
    RiskTotalBound(hazards, mapped);
    m := Metrics(|mapped|, Count(mapped, LacksHelmet), Count(mapped, LacksMask), |hazards|, risks);
  }
}
