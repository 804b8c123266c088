/** The fallback table of the cloud server: when `student_data.csv` is absent
    it builds 1000 synthetic records in a loop. The random draws are inputs. */
module SampleData {
  import opened Wrappers
  import opened Text
  import opened Students

  const SampleSize: nat := 1000

  /** The list `random.choice` picks the course from. */
  const SampleCourses: seq<string> := ["Docker", "Kubernetes", "AWS", "Terraform"]

  /** The draws behind one generated record, in the order the generator makes
      them: `choice` (as an index into SampleCourses), `uniform(0.2, 1.0)`,
      `randint(60, 100)`, `randint(0, 5)`, `randint(1, 12)`, `randint(1, 28)`. */
  datatype Draw = Draw(
    courseIndex: nat,
    completionRate: real,
    assessmentScore: int,
    supportTickets: int,
    month: nat,
    day: nat)

  /** The ranges of the draws. */
  predicate InRange(d: Draw) {
    && d.courseIndex < |SampleCourses|
    && 0.2 <= d.completionRate <= 1.0
    && 60 <= d.assessmentScore <= 100
    && 0 <= d.supportTickets <= 5
    && 1 <= d.month <= 12
    && 1 <= d.day <= 28
  }

  /** `f'STU{i:04d}'`. */
  function StudentId(i: nat): string {
    "STU" + ZeroPad(i, 4)
  }

  /** `f'2024-{month:02d}-{day:02d}'`. */
  function EnrollmentDate(month: nat, day: nat): string {
    "2024-" + ZeroPad(month, 2) + "-" + ZeroPad(day, 2)
  }

  /** The record the loop appends for index `i`. */
  function SampleRecord(i: nat, d: Draw): Record
    requires InRange(d)
  {
    Record(StudentId(i), SampleCourses[d.courseIndex], d.completionRate,
           d.assessmentScore, d.supportTickets, EnrollmentDate(d.month, d.day))
  }

  /** Different indices give different student ids. */
  lemma StudentIdInjective(i: nat, j: nat)
    ensures StudentId(i) == StudentId(j) ==> i == j
  {
    if StudentId(i) == StudentId(j) {
      assert ZeroPad(i, 4) == StudentId(i)[3..];
      assert ZeroPad(j, 4) == StudentId(j)[3..];
      ZeroPadRoundTrip(i, 4);
      ZeroPadRoundTrip(j, 4);
    }
  }

  // ---------------------------------------------------------------------
  // Calendar dates, as a reference for the generated date text
  // ---------------------------------------------------------------------

  datatype Date = Date(year: int, month: int, day: int)

  predicate IsLeapYear(y: int) {
    y % 4 == 0 && (y % 100 != 0 || y % 400 == 0)
  }

  function DaysInMonth(y: int, m: int): nat
    requires 1 <= m <= 12
  {
    if m == 2 then (if IsLeapYear(y) then 29 else 28)
    else if m == 4 || m == 6 || m == 9 || m == 11 then 30
    else 31
  }

  /** A date of the Gregorian calendar. */
  predicate IsValidDate(d: Date) {
    1 <= d.month <= 12 && 1 <= d.day <= DaysInMonth(d.year, d.month)
  }

  /** Reads `YYYY-MM-DD` text; None for anything else. */
  function ParseDate(s: string): Option<Date> {
    if |s| == 10 && s[4] == '-' && s[7] == '-'
       && AllDigits(s[..4]) && AllDigits(s[5..7]) && AllDigits(s[8..])
    then Some(Date(DecimalValue(s[..4]), DecimalValue(s[5..7]), DecimalValue(s[8..])))
    else None
  }

  /** Every generated date text reads back as the drawn day of 2024, and since
      the day is at most 28 it is a valid calendar date. */
  lemma EnrollmentDateRoundTrip(month: nat, day: nat)
    requires 1 <= month <= 12 && 1 <= day <= 28
    ensures ParseDate(EnrollmentDate(month, day)) == Some(Date(2024, month, day))
    ensures IsValidDate(Date(2024, month, day))
  {
    assert Pow10(2) == 100;
    DigitsLength(month, 2);
    DigitsLength(day, 2);
    ZeroPadRoundTrip(month, 2);
    ZeroPadRoundTrip(day, 2);
    YearText();
    assert EnrollmentDate(month, day) == "2024" + "-" + ZeroPad(month, 2) + "-" + ZeroPad(day, 2);
    ParseDateParts("2024", ZeroPad(month, 2), ZeroPad(day, 2));
  }

  lemma YearText()
    ensures AllDigits("2024") && DecimalValue("2024") == 2024
  {
    assert "2024"[..3] == "202" && "202"[..2] == "20" && "20"[..1] == "2" && "2"[..0] == "";
  }

  /** Text assembled as `y-mm-dd` from digit fields of widths 4, 2, 2 reads back field by field. */
  lemma ParseDateParts(y: string, mm: string, dd: string)
    requires |y| == 4 && |mm| == 2 && |dd| == 2
    requires AllDigits(y) && AllDigits(mm) && AllDigits(dd)
    ensures ParseDate(y + "-" + mm + "-" + dd) ==
      Some(Date(DecimalValue(y), DecimalValue(mm), DecimalValue(dd)))
  {
    var s := y + "-" + mm + "-" + dd;
    assert s[..4] == y && s[5..7] == mm && s[8..] == dd;
  }

  // ---------------------------------------------------------------------
  // The generator loop
  // ---------------------------------------------------------------------

  /** The fields of a generated record respect the generator's ranges. */
  predicate Bounded(r: Record, d: Draw) {
    && r.course in SampleCourses
    && 0.2 <= r.completionRate <= 1.0
    && 60 <= r.assessmentScore <= 100
    && 0 <= r.supportTickets <= 5
    && ParseDate(r.enrollmentDate) == Some(Date(2024, d.month, d.day))
    && IsValidDate(Date(2024, d.month, d.day))
  }

  lemma SampleRecordBounded(i: nat, d: Draw)
    requires InRange(d)
    ensures Bounded(SampleRecord(i, d), d)
  {
    EnrollmentDateRoundTrip(d.month, d.day);
  }

  /** The first `n` records the loop appends. */
  function Generated(n: nat, draws: seq<Draw>): seq<Record>
    requires n <= |draws|
    requires forall i :: 0 <= i < |draws| ==> InRange(draws[i])
  {
    if n == 0 then [] else Generated(n - 1, draws) + [SampleRecord(n - 1, draws[n - 1])]
  }

  /** Record `k` of the generated table is built from index `k` and draw `k`. */
  lemma {:induction false} GeneratedAt(n: nat, draws: seq<Draw>)
    requires n <= |draws|
    requires forall i :: 0 <= i < |draws| ==> InRange(draws[i])
    ensures |Generated(n, draws)| == n
    ensures forall k :: 0 <= k < n ==> Generated(n, draws)[k] == SampleRecord(k, draws[k])
  {
    if n > 0 {
      GeneratedAt(n - 1, draws);
      var prev := Generated(n - 1, draws);
      assert Generated(n, draws) == prev + [SampleRecord(n - 1, draws[n - 1])];
      forall k | 0 <= k < n ensures Generated(n, draws)[k] == SampleRecord(k, draws[k]) {
        if k < n - 1 {
          assert Generated(n, draws)[k] == prev[k];
        }
      }
    }
  }

  /** `for i in range(1000): students.append({...})`. */
  method GenerateSample(draws: seq<Draw>) returns (students: seq<Record>)
    requires |draws| == SampleSize
    requires forall i :: 0 <= i < |draws| ==> InRange(draws[i])
    ensures |students| == SampleSize
    ensures forall i :: 0 <= i < |students| ==> students[i] == SampleRecord(i, draws[i])
    ensures forall i, j :: 0 <= i < j < |students| ==> students[i].studentId != students[j].studentId
    ensures forall i :: 0 <= i < |students| ==> Bounded(students[i], draws[i])
  {
    students := [];
    for i := 0 to SampleSize
      invariant students == Generated(i, draws)
    {
      students := students + [SampleRecord(i, draws[i])];
    }
    GeneratedAt(SampleSize, draws);
    IdsDistinct(students, draws);
    AllBounded(students, draws);
  }

  /** Records built from their own indices carry pairwise distinct ids. */
  lemma IdsDistinct(students: seq<Record>, draws: seq<Draw>)
    requires |students| <= |draws|
    requires forall i :: 0 <= i < |students| ==> InRange(draws[i]) && students[i] == SampleRecord(i, draws[i])
    ensures forall i, j :: 0 <= i < j < |students| ==> students[i].studentId != students[j].studentId
  {
    forall i, j | 0 <= i < j < |students| ensures students[i].studentId != students[j].studentId {
      StudentIdInjective(i, j);
    }
  }

  /** Every record built from an in-range draw respects the generator's ranges. */
  lemma AllBounded(students: seq<Record>, draws: seq<Draw>)
    requires |students| <= |draws|
    requires forall i :: 0 <= i < |students| ==> InRange(draws[i]) && students[i] == SampleRecord(i, draws[i])
    ensures forall i :: 0 <= i < |students| ==> Bounded(students[i], draws[i])
  {
    forall i | 0 <= i < |students| ensures Bounded(students[i], draws[i]) {
      SampleRecordBounded(i, draws[i]);
    }
  }
}
