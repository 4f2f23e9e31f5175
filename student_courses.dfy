/** `routes/class/students.js`: `POST /courses` for a student. */
module StudentCourses {
  import opened Options
  import opened Http
  import opened Courses
  import Query

  const NoStudentCourses := "No courses found for this student"

  /** The six fields of one reply entry; there is no student count. */
  datatype EnrolledDetail = EnrolledDetail(
    courseId: string,
    courseCode: string,
    title: Option<string>,
    credits: int,
    semester: string,
    createdAt: int)

  /** The query `{ courseId: { $in: ids }, studentsEnrolled: user }`; a course
      without the array matches no student. */
  function EnrolledCourses(ids: seq<string>, user: string, courses: seq<Course>): (sel: seq<Course>)
    ensures forall c :: c in sel <==> c in courses && c.courseId in ids && user in EnrolledOf(c)
  {
    Query.Filter(courses, (c: Course) => c.courseId in ids && user in EnrolledOf(c))
  }

  function Detail(c: Course): EnrolledDetail {
    EnrolledDetail(c.courseId, c.courseCode, c.title, c.credits, c.semester, c.createdAt)
  }

  /** The handler: 400 for a malformed payload, 404 when the student is
      enrolled in none of the courses, otherwise 200 with one entry per
      selected course, in collection order, its title read from `title`. */
  function PostCourses(payload: PayloadIds, user: string, courses: seq<Course>): (r: Reply<seq<EnrolledDetail>>)
    ensures !IsValidPayload(payload) <==> r == Failed(400, InvalidPayloadFormat)
    ensures IsValidPayload(payload) ==>
      (r == Failed(404, NoStudentCourses) <==>
         forall c :: c in courses ==> !(c.courseId in payload.values && user in EnrolledOf(c)))
    ensures r == Failed(400, InvalidPayloadFormat) || r == Failed(404, NoStudentCourses) || r.Done?
    ensures r.Done? ==>
      var sel := EnrolledCourses(payload.values, user, courses);
      && r.status == 200 && |r.body| == |sel| > 0
      && forall k :: 0 <= k < |sel| ==>
           && r.body[k].courseId == sel[k].courseId && r.body[k].courseCode == sel[k].courseCode
           && r.body[k].title == sel[k].title && r.body[k].credits == sel[k].credits
           && r.body[k].semester == sel[k].semester && r.body[k].createdAt == sel[k].createdAt
  {
    if !IsValidPayload(payload) then Failed(400, InvalidPayloadFormat)
    else
      var sel := EnrolledCourses(payload.values, user, courses);
      if |sel| == 0 then Failed(404, NoStudentCourses)
      else
        assert sel[0] in sel;
        Done(200, seq(|sel|, k requires 0 <= k < |sel| => Detail(sel[k])))
  }

  /** A malformed payload is refused before any lookup. */
  lemma InvalidPayloadSkipsLookup(payload: PayloadIds, user: string, a: seq<Course>, b: seq<Course>)
    requires !IsValidPayload(payload)
    ensures PostCourses(payload, user, a) == PostCourses(payload, user, b)
  {
  }

  /** The selection follows the collection order. */
  lemma EnrolledCoursesInOrder(ids: seq<string>, user: string, a: seq<Course>, b: seq<Course>)
    ensures EnrolledCourses(ids, user, a + b) == EnrolledCourses(ids, user, a) + EnrolledCourses(ids, user, b)
  {
    Query.FilterConcat(a, b, (c: Course) => c.courseId in ids && user in EnrolledOf(c));
  }

  /** For courses written through the schema, which has no `title` field,
      every entry of a successful reply comes without a title. */
  lemma SchemaCoursesHaveNoTitle(payload: PayloadIds, user: string, courses: seq<Course>)
    requires forall c :: c in courses ==> c.title.None?
    ensures PostCourses(payload, user, courses).Done? ==>
      forall k :: 0 <= k < |PostCourses(payload, user, courses).body| ==> PostCourses(payload, user, courses).body[k].title.None?
  {
    var r := PostCourses(payload, user, courses);
    if r.Done? {
      var sel := EnrolledCourses(payload.values, user, courses);
      forall k | 0 <= k < |r.body|
        ensures r.body[k].title.None?
      {
        assert sel[k] in sel;
      }
    }
  }
}
