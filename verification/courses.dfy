/**
 * The course browser of the reports page: fetched course rows renamed, the
 * distinct semesters in first-seen order, the courses of the chosen semester,
 * and the semester/course selection that switches to a course's quiz report.
 */
module Courses {
  import opened Wrappers
  import opened Seqs

  /** A row of the course endpoint (JSON keys id, Course, Semester). */
  datatype CourseRow = CourseRow(id: int, course: string, semester: string)

  /** A course as the browser keeps it. */
  datatype Course = Course(id: int, name: string, semester: string)

  function ToCourse(row: CourseRow): Course
  {
    Course(row.id, row.course, row.semester)
  }

  /** The renaming read backwards. */
  function ToRow(c: Course): CourseRow
  {
    CourseRow(c.id, c.name, c.semester)
  }

  /** The `.map` over the fetched rows: one course per row, same order, nothing lost in the renaming. */
  function MapCourses(rows: seq<CourseRow>): (r: seq<Course>)
    ensures |r| == |rows|
    ensures forall i :: 0 <= i < |r| ==> ToRow(r[i]) == rows[i]
  {
    seq(|rows|, i requires 0 <= i < |rows| => ToCourse(rows[i]))
  }

  function SemesterColumn(courses: seq<Course>): (r: seq<string>)
    ensures |r| == |courses|
    ensures forall i :: 0 <= i < |r| ==> r[i] == courses[i].semester
  {
    seq(|courses|, i requires 0 <= i < |courses| => courses[i].semester)
  }

  /** `[...new Set(courses.map(course => course.semester))]`. */
  function Semesters(courses: seq<Course>): seq<string>
  {
    Distinct(SemesterColumn(courses))
  }

  /**
   * The semester buttons: each semester of some course exactly once, and in the
   * order in which the semesters first occur in the course list.
   */
  lemma SemestersSpec(courses: seq<Course>)
    ensures NoDuplicates(Semesters(courses))
    ensures forall s :: s in Semesters(courses) <==> exists i :: 0 <= i < |courses| && courses[i].semester == s
    ensures forall i, j :: 0 <= i < j < |Semesters(courses)| ==>
      FirstIndex(SemesterColumn(courses), Semesters(courses)[i]) < FirstIndex(SemesterColumn(courses), Semesters(courses)[j])
  {
    var column := SemesterColumn(courses);
    DistinctFirstOccurrenceOrder(column);
    forall s | (exists i :: 0 <= i < |courses| && courses[i].semester == s)
      ensures s in column
    {
      var i :| 0 <= i < |courses| && courses[i].semester == s;
      assert column[i] == s;
    }
  }

  /** `courses.filter(course => course.semester === selectedSemester)`. */
  function CoursesOf(courses: seq<Course>, semester: string): (r: seq<Course>)
    ensures forall c :: c in r <==> c in courses && c.semester == semester
  {
    Filter(courses, (c: Course) => c.semester == semester)
  }

  /** The semester panel lists its courses in their original order. */
  lemma CoursesOfIsSubsequence(courses: seq<Course>, semester: string)
    ensures IsSubsequence(CoursesOf(courses, semester), courses)
  {
    FilterIsSubsequence(courses, (c: Course) => c.semester == semester);
  }

  /** Every course is reachable: its semester has a button, and that semester's panel lists it. */
  lemma EveryCourseIsListed(courses: seq<Course>, i: int)
    requires 0 <= i < |courses|
    ensures courses[i].semester in Semesters(courses)
    ensures courses[i] in CoursesOf(courses, courses[i].semester)
  {
    assert SemesterColumn(courses)[i] == courses[i].semester;
  }

  /** React renders `null` and the empty string as false. */
  predicate Truthy(o: Option<string>)
  {
    o.Some? && o.value != ""
  }

  /** What the browser shows: a course's quiz report, or the semesters with the chosen one's courses. */
  datatype Screen =
    | QuizReport(courseName: string)
    | Browser(semesters: seq<string>, panel: Option<(string, seq<Course>)>)

  function ViewOf(courses: seq<Course>, selectedSemester: Option<string>, selectedCourse: Option<string>): (v: Screen)
    ensures v.QuizReport? <==> Truthy(selectedCourse)
    ensures v.QuizReport? ==> v.courseName == selectedCourse.value
    ensures v.Browser? ==> v.semesters == Semesters(courses)
    ensures v.Browser? ==> (v.panel.Some? <==> Truthy(selectedSemester))
    ensures v.Browser? && v.panel.Some? ==> v.panel.value == (selectedSemester.value, CoursesOf(courses, selectedSemester.value))
  {
    if Truthy(selectedCourse) then QuizReport(selectedCourse.value)
    else
      Browser(Semesters(courses),
        if Truthy(selectedSemester) then Some((selectedSemester.value, CoursesOf(courses, selectedSemester.value))) else None)
  }

  /** The browser's React state. */
  class CourseBrowser {
    var courses: seq<Course>
    var selectedSemester: Option<string>
    var selectedCourse: Option<string>

    constructor ()
      ensures courses == [] && selectedSemester == None && selectedCourse == None
    {
      courses := [];
      selectedSemester := None;
      selectedCourse := None;
    }

    /** The course request succeeded with `rows`. */
    method Fetched(rows: seq<CourseRow>)
      modifies this`courses
      ensures courses == MapCourses(rows)
    {
      courses := MapCourses(rows);
    }

    /** A semester button was clicked. */
    method SelectSemester(semester: string)
      modifies this`selectedSemester
      ensures selectedSemester == Some(semester)
    {
      selectedSemester := Some(semester);
    }

    /** A course of the semester panel was clicked: its name becomes the selected course. */
    method SelectCourse(course: Course)
      modifies this`selectedCourse
      ensures selectedCourse == Some(course.name)
      ensures course.name != "" ==> View() == QuizReport(course.name)
    {
      selectedCourse := Some(course.name);
    }

    /** "Return to courses": the selected course is cleared and the semester choice kept. */
    method ReturnToCourses()
      modifies this`selectedCourse
      ensures selectedCourse == None
      ensures View() == ViewOf(courses, selectedSemester, None)
    {
      selectedCourse := None;
    }

    function View(): Screen
      reads this
    {
      ViewOf(courses, selectedSemester, selectedCourse)
    }
  }
}
