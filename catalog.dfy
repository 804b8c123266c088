/** The tool catalog served by both MCP servers. `mcp-server.py` and
    `cloud-mcp-server.py` define the three analytics tools with the same code;
    the cloud server adds `get_server_info`. Every tool is a query over the
    immutable table `df`; instead of formatting text it returns the numbers
    the text is built from. */
module Catalog {
  import opened Wrappers
  import opened Students

  datatype TicketStats = TicketStats(mean: real, sum: int)

  /** What a tool reports. */
  datatype ToolResult =
    | NotFound(course: string)                         // "No data found for course: ..."
    | MeanRate(rate: real)                             // one course's mean completion rate
    | RatesByCourse(rates: map<string, real>)          // groupby('course') mean
    | Struggling(count: nat, threshold: real)          // "Found n students below ..."
    | CourseTickets(average: real, total: int)         // one course's ticket mean and sum
    | TicketsByCourse(stats: map<string, TicketStats>) // groupby('course') agg(['mean', 'sum'])
    | ServerInfo(records: nat)                         // "Serving n student records"

  /** The default of `identify_struggling_students(threshold: float = 0.5)`. */
  const DefaultThreshold: real := 0.5

  /** Python's `if course:` for `course: str = None`: neither None nor "". */
  predicate Truthy(course: Option<string>) {
    course.Some? && course.value != ""
  }

  // ---------------------------------------------------------------------
  // Filters and aggregates (df[mask], .sum(), .mean(), len)
  // ---------------------------------------------------------------------

  /** `df[df['course'] == c]`: the records of course `c`, in table order. */
  function OfCourse(t: seq<Record>, c: string): (m: seq<Record>)
    ensures |m| <= |t|
  {
    if t == [] then []
    else OfCourse(t[..|t| - 1], c) + (if t[|t| - 1].course == c then [t[|t| - 1]] else [])
  }

  /** The selection keeps every record of course `c`, as often as the table
      holds it, and nothing else. */
  lemma {:induction false} OfCourseContents(t: seq<Record>, c: string)
    ensures forall r :: multiset(OfCourse(t, c))[r] == if r.course == c then multiset(t)[r] else 0
  {
    if t != [] {
      var init := t[..|t| - 1];
      assert t == init + [t[|t| - 1]];
      OfCourseContents(init, c);
    }
  }

  /** `df[df['completion_rate'] < x]`: the records strictly below `x`, in table order. */
  function BelowRate(t: seq<Record>, x: real): (m: seq<Record>)
    ensures |m| <= |t|
    ensures |m| == |IndicesBelow(t, x)|
  {
    if t == [] then []
    else
      var init := t[..|t| - 1];
      assert IndicesBelow(t, x) ==
        IndicesBelow(init, x) + (if t[|t| - 1].completionRate < x then {|t| - 1} else {});
      BelowRate(init, x) + (if t[|t| - 1].completionRate < x then [t[|t| - 1]] else [])
  }

  /** The positions of the table whose completion rate is strictly below `x`:
      the reference definition of "struggling". */
  ghost function IndicesBelow(t: seq<Record>, x: real): set<nat> {
    set i: nat | i < |t| && t[i].completionRate < x
  }

  function SumRates(rs: seq<Record>): real {
    if rs == [] then 0.0 else SumRates(rs[..|rs| - 1]) + rs[|rs| - 1].completionRate
  }

  function SumTickets(rs: seq<Record>): int {
    if rs == [] then 0 else SumTickets(rs[..|rs| - 1]) + rs[|rs| - 1].supportTickets
  }

  /** pandas `Series.mean()` of the completion rates of a non-empty selection. */
  function Mean(rs: seq<Record>): (m: real)
    requires rs != []
    ensures m * |rs| as real == SumRates(rs)
  {
    SumRates(rs) / |rs| as real
  }

  /** pandas `Series.mean()` of the ticket counts of a non-empty selection. */
  function TicketMean(rs: seq<Record>): (m: real)
    requires rs != []
    ensures m * |rs| as real == SumTickets(rs) as real
  {
    SumTickets(rs) as real / |rs| as real
  }

  /** A course occurs in the table exactly when its selection is non-empty. */
  lemma CoursesInIffSelected(t: seq<Record>)
    ensures forall c :: c in CoursesIn(t) <==> OfCourse(t, c) != []
  {
    forall c ensures c in CoursesIn(t) <==> OfCourse(t, c) != [] {
      OfCourseEmptyIffAbsent(t, c);
    }
  }

  lemma OfCourseEmptyIffAbsent(t: seq<Record>, c: string)
    ensures OfCourse(t, c) == [] <==> c !in CoursesIn(t)
  {
    var m := OfCourse(t, c);
    OfCourseContents(t, c);
    if c in CoursesIn(t) {
      var r :| r in t && r.course == c;
      assert multiset(t)[r] > 0;
      assert r in m;
    }
  }

  // ---------------------------------------------------------------------
  // The tools
  // ---------------------------------------------------------------------

  /** `get_course_completion_rates(course)`. */
  function CompletionRates(t: seq<Record>, course: Option<string>): (r: ToolResult)
    ensures Truthy(course) && course.value !in CoursesIn(t) ==> r == NotFound(course.value)
    ensures Truthy(course) && course.value in CoursesIn(t) ==>
      r.MeanRate? && r.rate * |OfCourse(t, course.value)| as real == SumRates(OfCourse(t, course.value))
    ensures !Truthy(course) ==> r == RatesByCourse(MeanByCourse(t))
  {
    if Truthy(course) then CourseCompletion(t, course.value) else RatesByCourse(MeanByCourse(t))
  }

  /** The `if course:` branch of `get_course_completion_rates`. */
  function CourseCompletion(t: seq<Record>, c: string): (r: ToolResult)
    ensures c !in CoursesIn(t) ==> r == NotFound(c)
    ensures c in CoursesIn(t) ==> r.MeanRate? && r.rate * |OfCourse(t, c)| as real == SumRates(OfCourse(t, c))
  {
    var selected := OfCourse(t, c);
    OfCourseEmptyIffAbsent(t, c);
    if |selected| == 0 then NotFound(c) else MeanRate(Mean(selected))
  }

  /** `df.groupby('course')['completion_rate'].mean()`: one mean per course present. */
  function MeanByCourse(t: seq<Record>): (g: map<string, real>)
    ensures g.Keys == CoursesIn(t)
    ensures forall c :: c in g ==> OfCourse(t, c) != [] && g[c] == Mean(OfCourse(t, c))
  {
    CoursesInIffSelected(t);
    map c | c in CoursesIn(t) :: Mean(OfCourse(t, c))
  }

  /** `identify_struggling_students(threshold)`; an absent argument means 0.5. */
  function IdentifyStruggling(t: seq<Record>, threshold: Option<real>): (r: ToolResult)
    ensures r.Struggling?
    ensures r.threshold == if threshold.Some? then threshold.value else DefaultThreshold
    ensures r.count == |IndicesBelow(t, r.threshold)|
    ensures r.count <= |t|
  {
    var x := if threshold.Some? then threshold.value else DefaultThreshold;
    Struggling(|BelowRate(t, x)|, x)
  }

  /** `get_support_tickets_by_course(course)`. */
  function SupportTickets(t: seq<Record>, course: Option<string>): (r: ToolResult)
    ensures Truthy(course) && course.value !in CoursesIn(t) ==> r == NotFound(course.value)
    ensures Truthy(course) && course.value in CoursesIn(t) ==>
      r.CourseTickets? && r.total == SumTickets(OfCourse(t, course.value)) &&
      r.average * |OfCourse(t, course.value)| as real == r.total as real
    ensures !Truthy(course) ==> r == TicketsByCourse(TicketStatsByCourse(t))
  {
    if Truthy(course) then CourseTicketStats(t, course.value) else TicketsByCourse(TicketStatsByCourse(t))
  }

  /** The `if course:` branch of `get_support_tickets_by_course`. */
  function CourseTicketStats(t: seq<Record>, c: string): (r: ToolResult)
    ensures c !in CoursesIn(t) ==> r == NotFound(c)
    ensures c in CoursesIn(t) ==>
      r.CourseTickets? && r.total == SumTickets(OfCourse(t, c)) &&
      r.average * |OfCourse(t, c)| as real == r.total as real
  {
    var selected := OfCourse(t, c);
    OfCourseEmptyIffAbsent(t, c);
    if |selected| == 0 then NotFound(c)
    else
      var average, total := TicketMean(selected), SumTickets(selected);
      assert average * |selected| as real == total as real;
      CourseTickets(average, total)
  }

  /** `df.groupby('course')['support_tickets'].agg(['mean', 'sum'])`. */
  function TicketStatsByCourse(t: seq<Record>): (g: map<string, TicketStats>)
    ensures g.Keys == CoursesIn(t)
    ensures forall c :: c in g ==>
      OfCourse(t, c) != [] && g[c] == TicketStats(TicketMean(OfCourse(t, c)), SumTickets(OfCourse(t, c)))
  {
    CoursesInIffSelected(t);
    map c | c in CoursesIn(t) :: TicketStats(TicketMean(OfCourse(t, c)), SumTickets(OfCourse(t, c)))
  }

  /** `get_server_info()` of the cloud server: the live record count. */
  function GetServerInfo(t: seq<Record>): (r: ToolResult)
    ensures r.ServerInfo? && r.records == |t|
  {
    ServerInfo(|t|)
  }

  // ---------------------------------------------------------------------
  // Properties of the tools
  // ---------------------------------------------------------------------

  /** Appending one record raises the struggling count by one exactly when its
      rate is strictly below the threshold; a rate equal to it is not counted. */
  lemma {:induction false} StrugglingIsStrict(t: seq<Record>, r: Record, x: real)
    ensures IdentifyStruggling(t + [r], Some(x)).count ==
      IdentifyStruggling(t, Some(x)).count + (if r.completionRate < x then 1 else 0)
  {
    assert (t + [r])[..|t|] == t;
  }

  /** Raising the threshold never lowers the struggling count. */
  lemma {:induction false} StrugglingMonotone(t: seq<Record>, x: real, y: real)
    requires x <= y
    ensures IdentifyStruggling(t, Some(x)).count <= IdentifyStruggling(t, Some(y)).count
  {
    BelowRateMonotone(t, x, y);
  }

  lemma {:induction false} BelowRateMonotone(t: seq<Record>, x: real, y: real)
    requires x <= y
    ensures |BelowRate(t, x)| <= |BelowRate(t, y)|
  {
    if t != [] {
      BelowRateMonotone(t[..|t| - 1], x, y);
    }
  }

  lemma {:induction false} SumRatesBounds(rs: seq<Record>)
    requires forall i :: 0 <= i < |rs| ==> 0.0 <= rs[i].completionRate <= 1.0
    ensures 0.0 <= SumRates(rs) <= |rs| as real
  {
    if rs != [] {
      SumRatesBounds(rs[..|rs| - 1]);
    }
  }

  /** When every completion rate lies in [0, 1], so does every mean a tool reports. */
  lemma CompletionMeansInUnitInterval(t: seq<Record>, course: Option<string>)
    requires forall i :: 0 <= i < |t| ==> 0.0 <= t[i].completionRate <= 1.0
    ensures CompletionRates(t, course).MeanRate? ==> 0.0 <= CompletionRates(t, course).rate <= 1.0
    ensures CompletionRates(t, course).RatesByCourse? ==>
      forall c :: c in CompletionRates(t, course).rates ==> 0.0 <= CompletionRates(t, course).rates[c] <= 1.0
  {
    forall c ensures OfCourse(t, c) != [] ==> 0.0 <= Mean(OfCourse(t, c)) <= 1.0 {
      if OfCourse(t, c) != [] {
        MeanInUnitInterval(t, c);
      }
    }
  }

  lemma MeanInUnitInterval(t: seq<Record>, c: string)
    requires forall i :: 0 <= i < |t| ==> 0.0 <= t[i].completionRate <= 1.0
    requires OfCourse(t, c) != []
    ensures 0.0 <= Mean(OfCourse(t, c)) <= 1.0
  {
    var m := OfCourse(t, c);
    OfCourseContents(t, c);
    forall i | 0 <= i < |m| ensures 0.0 <= m[i].completionRate <= 1.0 {
      assert multiset(m)[m[i]] > 0;
    }
    MeanBounds(m);
  }

  lemma MeanBounds(rs: seq<Record>)
    requires rs != []
    requires forall i :: 0 <= i < |rs| ==> 0.0 <= rs[i].completionRate <= 1.0
    ensures 0.0 <= Mean(rs) <= 1.0
  {
    SumRatesBounds(rs);
    RatioBounds(SumRates(rs), |rs| as real);
  }

  lemma RatioBounds(sum: real, n: real)
    requires n > 0.0 && 0.0 <= sum <= n
    ensures 0.0 <= sum / n <= 1.0
  {
  }

  /** The grouped answer and the single-course answer agree on every course
      present whose name is truthy. */
  lemma GroupedAgreesWithSingle(t: seq<Record>, c: string)
    requires c != "" && c in CoursesIn(t)
    ensures CompletionRates(t, None).rates[c] == CompletionRates(t, Some(c)).rate
    ensures SupportTickets(t, None).stats[c] ==
      TicketStats(SupportTickets(t, Some(c)).average, SupportTickets(t, Some(c)).total)
  {
    OfCourseEmptyIffAbsent(t, c);
  }

  /** A four-row table: two Docker records at 0.4 and 0.8, two others at or above 0.5. */
  function ExampleTable(): seq<Record> {
    [ Record("STU0000", "Docker", 0.4, 70, 1, "2024-01-05"),
      Record("STU0001", "Docker", 0.8, 90, 0, "2024-02-11"),
      Record("STU0002", "AWS", 0.5, 80, 3, "2024-03-17"),
      Record("STU0003", "Kubernetes", 0.9, 65, 2, "2024-04-23") ]
  }

  /** Docker's mean completion rate in the example table is 0.6. */
  lemma ExampleDockerMean()
    ensures CompletionRates(ExampleTable(), Some("Docker")) == MeanRate(0.6)
  {
    var t := ExampleTable();
    assert t[..3] == t[..2] + [t[2]] && t[..2] == t[..1] + [t[1]] && t[..1] == [t[0]] && t[..0] == [];
    assert OfCourse(t[..1], "Docker") == [t[0]];
    assert OfCourse(t[..2], "Docker") == [t[0], t[1]];
    assert OfCourse(t[..3], "Docker") == [t[0], t[1]];
    assert OfCourse(t, "Docker") == [t[0], t[1]];
    assert [t[0], t[1]][..1] == [t[0]] && [t[0]][..0] == [];
    assert SumRates([t[0]]) == 0.4;
    assert SumRates([t[0], t[1]]) == 1.2;
  }

  /** Exactly one record of the example table is below the default threshold;
      the record at exactly 0.5 is not counted. */
  lemma ExampleStruggling()
    ensures IdentifyStruggling(ExampleTable(), None) == Struggling(1, 0.5)
  {
    var t := ExampleTable();
    assert t[..3] == t[..2] + [t[2]] && t[..2] == t[..1] + [t[1]] && t[..1] == [t[0]] && t[..0] == [];
    assert BelowRate(t[..1], 0.5) == [t[0]];
    assert BelowRate(t[..2], 0.5) == [t[0]];
    assert BelowRate(t[..3], 0.5) == [t[0]];
  }

  /** A course absent from the example table is reported as not found, by name. */
  lemma ExampleAbsentCourse()
    ensures CompletionRates(ExampleTable(), Some("Ansible")) == NotFound("Ansible")
  {
    var t := ExampleTable();
    assert forall r :: r in t ==> r.course != "Ansible";
  }
}
