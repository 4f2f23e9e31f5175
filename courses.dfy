/** The course document both course lookups read (the Course schema). */
module Courses {
  import opened Options

  /** `studentsEnrolled` may be absent on a document. `title` is not a
      schema field (the schema names the course `courseTitle`); a document
      written through the schema has no `title`. */
  datatype Course = Course(
    courseId: string,
    department: string,
    level: string,
    schoolName: string,
    lecturerIds: seq<string>,
    studentsEnrolled: Option<seq<string>>,
    createdAt: int,
    courseCode: string,
    courseTitle: string,
    title: Option<string>,
    credits: int,
    semester: string,
    session: string,
    isActive: bool)

  /** An absent `studentsEnrolled` array holds nobody. */
  function EnrolledOf(c: Course): (s: seq<string>)
    ensures c.studentsEnrolled.None? ==> s == []
    ensures c.studentsEnrolled.Some? ==> s == c.studentsEnrolled.value
  {
    c.studentsEnrolled.GetOr([])
  }
}
