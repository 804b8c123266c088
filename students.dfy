/** One row of the student table (`student_data.csv` or the generated sample). */
module Students {

  /** A student record. The enrollment date is kept as the `YYYY-MM-DD` text
      the table holds; the completion rate is an exact real, not a float. */
  datatype Record = Record(
    studentId: string,
    course: string,
    completionRate: real,
    assessmentScore: int,
    supportTickets: int,
    enrollmentDate: string)

  /** The set of courses that occur in the table (the groups of `groupby('course')`). */
  function CoursesIn(t: seq<Record>): set<string> {
    set r | r in t :: r.course
  }
}
