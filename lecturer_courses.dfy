/** `routes/class/lecturers.js`: `POST /courses` for a lecturer. */
module LecturerCourses {
  import opened Options
  import opened Http
  import opened Courses
  import Query

  const NoTeachingCourses := "No teaching courses found registered for you"

  /** The seven fields of one reply entry. */
  datatype TeachingDetail = TeachingDetail(
    courseId: string,
    courseCode: string,
    title: string,
    credits: int,
    semester: string,
    createdAt: int,
    numberOfStudents: nat)

  /** The query `{ courseId: { $in: ids }, lecturerIds: user }`. */
  function TeachingCourses(ids: seq<string>, user: string, courses: seq<Course>): (sel: seq<Course>)
    ensures forall c :: c in sel <==> c in courses && c.courseId in ids && user in c.lecturerIds
  {
    Query.Filter(courses, (c: Course) => c.courseId in ids && user in c.lecturerIds)
  }

  /** `studentsEnrolled?.length || 0`. */
  function NumberOfStudents(c: Course): (n: nat)
    ensures n == |EnrolledOf(c)|
  {
    match c.studentsEnrolled
    case Some(s) => |s|
    case None => 0
  }

  function Detail(c: Course): TeachingDetail {
    TeachingDetail(c.courseId, c.courseCode, c.courseTitle, c.credits, c.semester, c.createdAt, NumberOfStudents(c))
  }

  /** The handler: 400 for a malformed payload, 404 when the lecturer
      teaches none of the courses, otherwise 200 with one entry per
      selected course, in collection order, its title read from
      `courseTitle` and its student count from `studentsEnrolled`. */
  function PostCourses(payload: PayloadIds, user: string, courses: seq<Course>): (r: Reply<seq<TeachingDetail>>)
    ensures !IsValidPayload(payload) <==> r == Failed(400, InvalidPayloadFormat)
    ensures IsValidPayload(payload) ==>
      (r == Failed(404, NoTeachingCourses) <==>
         forall c :: c in courses ==> !(c.courseId in payload.values && user in c.lecturerIds))
    ensures r == Failed(400, InvalidPayloadFormat) || r == Failed(404, NoTeachingCourses) || r.Done?
    ensures r.Done? ==>
      var sel := TeachingCourses(payload.values, user, courses);
      && r.status == 200 && |r.body| == |sel| > 0
      && forall k :: 0 <= k < |sel| ==>
           && r.body[k].courseId == sel[k].courseId && r.body[k].courseCode == sel[k].courseCode
           && r.body[k].title == sel[k].courseTitle && r.body[k].credits == sel[k].credits
           && r.body[k].semester == sel[k].semester && r.body[k].createdAt == sel[k].createdAt
           && r.body[k].numberOfStudents == |EnrolledOf(sel[k])|
  {
    if !IsValidPayload(payload) then Failed(400, InvalidPayloadFormat)
    else
      var sel := TeachingCourses(payload.values, user, courses);
      if |sel| == 0 then Failed(404, NoTeachingCourses)
      else
        assert sel[0] in sel;
        Done(200, seq(|sel|, k requires 0 <= k < |sel| => Detail(sel[k])))
  }

  /** A malformed payload is refused before any lookup. */
  lemma InvalidPayloadSkipsLookup(payload: PayloadIds, user: string, a: seq<Course>, b: seq<Course>)
    requires !IsValidPayload(payload)
    ensures PostCourses(payload, user, a) == PostCourses(payload, user, b)
  {
  }

  /** The selection follows the collection order. */
  lemma TeachingCoursesInOrder(ids: seq<string>, user: string, a: seq<Course>, b: seq<Course>)
    ensures TeachingCourses(ids, user, a + b) == TeachingCourses(ids, user, a) + TeachingCourses(ids, user, b)
  {
    Query.FilterConcat(a, b, (c: Course) => c.courseId in ids && user in c.lecturerIds);
  }
}
