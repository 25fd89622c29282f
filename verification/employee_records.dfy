/** The employee table: search by name or id, the per-employee PPE status
    and badge, the "last violation" caption and the summary cards. */
module EmployeeRecords {
  import opened Wrappers
  import opened Seqs
  import opened Text
  import opened RelativeTime
  import opened MockData

  // ---------------------------------------------------------------------------
  // Search

  /** The search box predicate: the lower-cased name or id contains the
      lower-cased term. */
  predicate MatchesSearch(e: Employee, term: string) {
    Includes(Lower(e.name), Lower(term)) || Includes(Lower(e.id), Lower(term))
  }

  /** `filteredEmployees`: the matching employees, in table order. */
  function FilteredEmployees(employees: seq<Employee>, term: string): (r: seq<Employee>)
    ensures |r| <= |employees|
    ensures IsSubsequence(r, employees)
    ensures forall e :: e in r <==> e in employees && MatchesSearch(e, term)
    ensures forall e :: multiset(r)[e] == if MatchesSearch(e, term) then multiset(employees)[e] else 0
  {
    FilterIsSubsequence(employees, e => MatchesSearch(e, term));
    FilterMultiset(employees, e => MatchesSearch(e, term));
    Filter(employees, e => MatchesSearch(e, term))
  }

  /** A match means the term occurs at some position of the lower-cased name
      or of the lower-cased id. */
  lemma MatchesSearchIff(e: Employee, term: string)
    ensures MatchesSearch(e, term) <==>
      (exists i :: OccursAt(Lower(e.name), Lower(term), i)) || (exists i :: OccursAt(Lower(e.id), Lower(term), i))
  {
    assert MatchesSearch(e, term) <==> Includes(Lower(e.name), Lower(term)) || Includes(Lower(e.id), Lower(term));
    IncludesIff(Lower(e.name), Lower(term));
    IncludesIff(Lower(e.id), Lower(term));
  }

  /** An empty search box shows every employee in the original order. */
  lemma EmptySearchShowsAll(employees: seq<Employee>)
    ensures FilteredEmployees(employees, "") == employees
  {
    forall e | e in employees
      ensures MatchesSearch(e, "")
    {
      EmptyIncluded(Lower(e.name));
    }
    FilterKeepsAll(employees, e => MatchesSearch(e, ""));
  }

  /** The search ignores the case of ASCII letters in the term. */
  lemma SearchIgnoresTermCase(employees: seq<Employee>, term: string, term': string)
    requires Lower(term) == Lower(term')
    ensures FilteredEmployees(employees, term) == FilteredEmployees(employees, term')
  {
    FilterCongruent(employees, e => MatchesSearch(e, term), e => MatchesSearch(e, term'));
  }

  // ---------------------------------------------------------------------------
  // PPE status and badge

  datatype PpeStatus = PpeStatus(compliant: nat, total: nat, percentage: nat)

  /** Number of the four PPE flags that are set. */
  function FlagsSet(e: Employee): nat {
    (if e.helmet then 1 else 0) + (if e.goggles then 1 else 0)
    + (if e.mask then 1 else 0) + (if e.shoes then 1 else 0)
  }

  predicate FullyEquipped(e: Employee) {
    e.helmet && e.goggles && e.mask && e.shoes
  }

  /** `Boolean` used as a filter predicate. */
  predicate IsSet(b: bool) {
    b
  }

  /** `[a, b, c, d].filter(Boolean).length` counts the true flags. */
  lemma CountFlags(a: bool, b: bool, c: bool, d: bool)
    ensures Count([a, b, c, d], IsSet) == (if a then 1 else 0) + (if b then 1 else 0) + (if c then 1 else 0) + (if d then 1 else 0)
  {
    CountFour([a, b, c, d], IsSet);
  }

  /** `getPPEStatus`: the flags that are set out of four, as a percentage. */
  function GetPpeStatus(e: Employee): (r: PpeStatus)
    ensures r.total == 4
    ensures r.compliant == FlagsSet(e) && r.compliant <= r.total
    ensures r.percentage == 25 * r.compliant
    ensures r.percentage == 100 <==> FullyEquipped(e)
  {
    var compliant := Count([e.helmet, e.goggles, e.mask, e.shoes], IsSet);
    CountFlags(e.helmet, e.goggles, e.mask, e.shoes);
    PpeStatus(compliant, 4, compliant * 100 / 4)
  }

  datatype Badge = FullCompliance | PartialCompliance | NonCompliant

  /** `getStatusBadge`, without the styling. */
  function StatusBadge(percentage: int): (b: Badge)
    ensures b == FullCompliance <==> percentage == 100
    ensures b == PartialCompliance <==> percentage != 100 && percentage >= 75
  {
    if percentage == 100 then FullCompliance
    else if percentage >= 75 then PartialCompliance
    else NonCompliant
  }

  /** The badge an employee's row shows: full with all four flags, partial
      with exactly three, non-compliant with two or fewer. */
  lemma EmployeeBadge(e: Employee)
    ensures StatusBadge(GetPpeStatus(e).percentage) == FullCompliance <==> FlagsSet(e) == 4
    ensures StatusBadge(GetPpeStatus(e).percentage) == PartialCompliance <==> FlagsSet(e) == 3
    ensures StatusBadge(GetPpeStatus(e).percentage) == NonCompliant <==> FlagsSet(e) <= 2
  {
  }

  // ---------------------------------------------------------------------------
  // Last violation caption

  /** The bucket `formatLastViolation` picks for a violation time, given the
      clock `now`. */
  function ClassifyLastViolation(now: int, last: Option<int>): (e: Elapsed)
    ensures last.None? <==> e == Never
    ensures last.Some? ==>
      var d := DiffMinutes(now, last.value);
      && (d < 60 <==> e == Minutes(d))
      && (60 <= d < 1440 <==> e.Hours?)
      && (1440 <= d <==> e.Days?)
      && (e.Hours? ==> 1 <= e.n <= 23 && 60 * e.n <= d < 60 * (e.n + 1))
      && (e.Days? ==> 1 <= e.n && 1440 * e.n <= d < 1440 * (e.n + 1))
  {
    match last
    case None => Never
    case Some(t) =>
      var d := DiffMinutes(now, t);
      if d < 60 then Minutes(d)
      else if d < 1440 then Hours(d / 60)
      else Days(d / 1440)
  }

  /** `formatLastViolation`. */
  function FormatLastViolation(now: int, last: Option<int>): string {
    Render(ClassifyLastViolation(now, last))
  }

  /** The caption determines its bucket: reading it back recovers the
      minutes, hours or days shown, or `Never`. */
  lemma FormatLastViolationReadsBack(now: int, last: Option<int>)
    ensures Parse(FormatLastViolation(now, last)) == Some(ClassifyLastViolation(now, last))
    ensures FormatLastViolation(now, last) == "Never" <==> last.None?
  {
    ParseRender(ClassifyLastViolation(now, last));
    RenderInjective(ClassifyLastViolation(now, last), Never);
  }

  // ---------------------------------------------------------------------------
  // Summary cards

  datatype Summary = Summary(total: nat, fullyCompliant: nat, nonCompliant: nat, totalViolations: nat)

  function Violations(employees: seq<Employee>): (r: seq<nat>)
    ensures |r| == |employees|
    ensures forall i :: 0 <= i < |r| ==> r[i] == employees[i].totalViolations
  {
    seq(|employees|, i requires 0 <= i < |employees| => employees[i].totalViolations)
  }

  /** The four summary cards. */
  function Summarize(employees: seq<Employee>): (r: Summary)
    ensures r.total == |employees|
    ensures r.fullyCompliant + r.nonCompliant == r.total
    ensures r.fullyCompliant == Count(employees, FullyEquipped)
    ensures r.totalViolations == Sum(Violations(employees))
  {
    var full := (e: Employee) => GetPpeStatus(e).percentage == 100;
    var partial := (e: Employee) => GetPpeStatus(e).percentage < 100;
    CountPartition2(employees, full, partial);
    FilterCongruent(employees, full, FullyEquipped);
    Summary(|employees|, Count(employees, full), Count(employees, partial), Sum(Violations(employees)))
  }

  /** The cards over the shipped employees: eight employees, three fully
      compliant, five not, thirty-one violations in all. */
  lemma FixtureSummary(loadedAt: int)
    ensures Summarize(MockEmployees(loadedAt)) == Summary(8, 3, 5, 31)
  {
    FixtureViolations(loadedAt);
    FixtureFullyEquipped(loadedAt);
  }

  lemma FixtureViolations(loadedAt: int)
    ensures Sum(Violations(MockEmployees(loadedAt))) == 31
  {
    var emps := MockEmployees(loadedAt);
    var v: seq<nat> := [2, 5, 8, 0, 3, 1, 0, 12];
    assert Violations(emps) == v by {
      var w := Violations(emps);
      assert |w| == 8;
      assert w[0] == 2 && w[1] == 5 && w[2] == 8 && w[3] == 0;
      assert w[4] == 3 && w[5] == 1 && w[6] == 0 && w[7] == 12;
    }
    assert v[8..] == [];
    assert Sum(v[7..]) == 12;
    assert Sum(v[6..]) == 12;
    assert Sum(v[5..]) == 13;
    assert Sum(v[4..]) == 16;
    assert Sum(v[3..]) == 16;
    assert Sum(v[2..]) == 24;
    assert Sum(v[1..]) == 29;
    assert v[0..] == v;
  }

  /** Of the shipped employees, the first, fourth and seventh wear all four items. */
  lemma FixtureFullyEquipped(loadedAt: int)
    ensures Count(MockEmployees(loadedAt), FullyEquipped) == 3
  {
    var e := MockEmployees(loadedAt);
    assert |e| == 8;
    assert FullyEquipped(e[0]) && !FullyEquipped(e[1]) && !FullyEquipped(e[2]) && FullyEquipped(e[3]);
    assert !FullyEquipped(e[4]) && !FullyEquipped(e[5]) && FullyEquipped(e[6]) && !FullyEquipped(e[7]);
    CountEight(e, FullyEquipped);
  }

  /** Counting over eight elements: the two halves of four. */
  lemma CountEight<T>(s: seq<T>, p: T -> bool)
    requires |s| == 8
    ensures Count(s, p) == (if p(s[0]) then 1 else 0) + (if p(s[1]) then 1 else 0)
      + (if p(s[2]) then 1 else 0) + (if p(s[3]) then 1 else 0)
      + (if p(s[4]) then 1 else 0) + (if p(s[5]) then 1 else 0)
      + (if p(s[6]) then 1 else 0) + (if p(s[7]) then 1 else 0)
  {
    assert s == s[..4] + s[4..];
    CountAppend(s[..4], s[4..], p);
    var a, b := s[..4], s[4..];
    assert a[0] == s[0] && a[1] == s[1] && a[2] == s[2] && a[3] == s[3];
    assert b[0] == s[4] && b[1] == s[5] && b[2] == s[6] && b[3] == s[7];
    CountFour(a, p);
    CountFour(b, p);
  }

  /** Counting over four elements, one by one. */
  lemma CountFour<T>(s: seq<T>, p: T -> bool)
    requires |s| == 4
    ensures Count(s, p) == (if p(s[0]) then 1 else 0) + (if p(s[1]) then 1 else 0)
      + (if p(s[2]) then 1 else 0) + (if p(s[3]) then 1 else 0)
  {
    CountStep(s, 0, p);
    CountStep(s, 1, p);
    CountStep(s, 2, p);
    CountStep(s, 3, p);
    assert s[4..] == [];
    assert s[0..] == s;
  }
}
