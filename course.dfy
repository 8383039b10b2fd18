/** Courses (models/course.py): a course offering with a `^[A-Z]{4}\d{4}$` course
    code, 1-6 credits, a year in 2020..2030 and enrolment bounds; the create
    request carries the same fields without the id, and the update request has
    every field optional and neither the id nor the course code. */
module CourseModel {
  import opened Wrappers
  import Basics
  import opened Text
  import opened Patterns
  import opened Patches

  datatype Semester = Fall | Spring | Summer

  function SemesterValue(s: Semester): string
  {
    match s
    case Fall => "Fall"
    case Spring => "Spring"
    case Summer => "Summer"
  }

  /** Validation of a semester given as a string: exactly the three enum values. */
  function ParseSemester(s: string): (r: Option<Semester>)
    ensures r.Some? <==> s == "Fall" || s == "Spring" || s == "Summer"
    ensures r.Some? ==> SemesterValue(r.value) == s
  {
    if s == "Fall" then Some(Fall) else if s == "Spring" then Some(Spring)
    else if s == "Summer" then Some(Summer) else None
  }

  lemma SemesterRoundTrip(s: Semester)
    ensures ParseSemester(SemesterValue(s)) == Some(s)
  {
  }

  datatype DayOfWeek = Monday | Tuesday | Wednesday | Thursday | Friday | Saturday | Sunday

  function DayValue(d: DayOfWeek): string
  {
    match d
    case Monday => "Monday"
    case Tuesday => "Tuesday"
    case Wednesday => "Wednesday"
    case Thursday => "Thursday"
    case Friday => "Friday"
    case Saturday => "Saturday"
    case Sunday => "Sunday"
  }

  /** Validation of a day given as a string: exactly the seven enum values. */
  function ParseDay(s: string): (r: Option<DayOfWeek>)
    ensures r.Some? <==> s in ["Monday", "Tuesday", "Wednesday", "Thursday", "Friday", "Saturday", "Sunday"]
    ensures r.Some? ==> DayValue(r.value) == s
  {
    if s == "Monday" then Some(Monday) else if s == "Tuesday" then Some(Tuesday)
    else if s == "Wednesday" then Some(Wednesday) else if s == "Thursday" then Some(Thursday)
    else if s == "Friday" then Some(Friday) else if s == "Saturday" then Some(Saturday)
    else if s == "Sunday" then Some(Sunday) else None
  }

  lemma DayRoundTrip(d: DayOfWeek)
    ensures ParseDay(DayValue(d)) == Some(d)
  {
  }

  /** `CourseCodeType`: `^[A-Z]{4}\d{4}$`. */
  const CourseCodePattern: seq<Atom> := [Atom(UpperLetter, 4), Atom(AsciiDigit, 4)]

  predicate IsCourseCode(s: string)
  {
    FullMatch(CourseCodePattern, s)
  }

  /** A course code is eight characters: four capital letters, then four digits. */
  lemma CourseCodeShape(s: string)
    ensures IsCourseCode(s) <==>
              && |s| == 8
              && (forall i :: 0 <= i < 4 ==> IsUpper(s[i]))
              && (forall i :: 4 <= i < 8 ==> IsDigit(s[i]))
  {
    var p := CourseCodePattern;
    assert p[0] == Atom(UpperLetter, 4) && p[1..][0] == Atom(AsciiDigit, 4) && p[1..][1..] == [];
    if |s| >= 4 {
      var rest := s[4..];
      assert FullMatch(p, s) <==> (forall i :: 0 <= i < 4 ==> IsUpper(s[i])) && FullMatch(p[1..], rest);
      if |rest| >= 4 {
        assert FullMatch(p[1..], rest) <==> (forall i :: 0 <= i < 4 ==> IsDigit(rest[i])) && rest[4..] == [];
        assert (forall i :: 0 <= i < 4 ==> IsDigit(rest[i])) <==> (forall i :: 4 <= i < 8 ==> IsDigit(s[i]));
      } else {
        assert !FullMatch(p[1..], rest);
      }
    }
  }

  predicate InCreditRange(credits: int) { 1 <= credits <= 6 }

  predicate InYearRange(year: int) { 2020 <= year <= 2030 }

  /** The field constraints shared by `CourseBase` and `CourseCreate`. No constraint
      relates the current enrolment to the maximum. */
  predicate CourseConstraints(courseCode: string, credits: int, year: int, maxEnrollment: Option<int>,
                              currentEnrollment: int)
  {
    && IsCourseCode(courseCode)
    && InCreditRange(credits)
    && InYearRange(year)
    && (maxEnrollment.Some? ==> maxEnrollment.value >= 1)
    && currentEnrollment >= 0
  }

  /** `CourseCreate`: the request body of a new course. */
  datatype CourseCreate = CourseCreate(
    courseCode: string,
    title: string,
    description: Option<string>,
    instructor: string,
    credits: int,
    semester: Semester,
    year: int,
    maxEnrollment: Option<int>,
    currentEnrollment: int,
    meetingDays: seq<DayOfWeek>,
    startTime: Option<Basics.TimeOfDay>,
    endTime: Option<Basics.TimeOfDay>,
    location: Option<string>,
    prerequisites: seq<string>,
    active: bool)
  {
    predicate Valid()
    {
      CourseConstraints(courseCode, credits, year, maxEnrollment, currentEnrollment)
    }
  }

  /** `CourseBase`: a stored course. */
  datatype Course = Course(
    id: Basics.Uuid,
    courseCode: string,
    title: string,
    description: Option<string>,
    instructor: string,
    credits: int,
    semester: Semester,
    year: int,
    maxEnrollment: Option<int>,
    currentEnrollment: int,
    meetingDays: seq<DayOfWeek>,
    startTime: Option<Basics.TimeOfDay>,
    endTime: Option<Basics.TimeOfDay>,
    location: Option<string>,
    prerequisites: seq<string>,
    active: bool)
  {
    predicate Valid()
    {
      CourseConstraints(courseCode, credits, year, maxEnrollment, currentEnrollment)
    }
  }

  /** `CourseCreate(...)` with validation and the declared defaults: accepted iff
      the code, credits, year and enrolment figures satisfy their constraints. */
  function NewCourseCreate(courseCode: string, title: string, instructor: string, credits: int,
                           semester: Semester, year: int,
                           description: Option<string> := None, maxEnrollment: Option<int> := None,
                           currentEnrollment: int := 0, meetingDays: seq<DayOfWeek> := [],
                           startTime: Option<Basics.TimeOfDay> := None, endTime: Option<Basics.TimeOfDay> := None,
                           location: Option<string> := None, prerequisites: seq<string> := [],
                           active: bool := true): (r: Result<CourseCreate, string>)
    ensures r.Ok? <==> CourseConstraints(courseCode, credits, year, maxEnrollment, currentEnrollment)
    ensures r.Ok? ==> r.value.Valid() && r.value.courseCode == courseCode && r.value.title == title
    ensures r.Ok? ==> r.value.instructor == instructor && r.value.credits == credits && r.value.year == year
    ensures r.Ok? ==> r.value.semester == semester && r.value.currentEnrollment == currentEnrollment
    ensures r.Ok? ==> r.value.meetingDays == meetingDays && r.value.prerequisites == prerequisites
    ensures r.Ok? ==> r.value.active == active && r.value.maxEnrollment == maxEnrollment
    ensures r.Ok? ==> r.value.description == description && r.value.location == location
    ensures r.Ok? ==> r.value.startTime == startTime && r.value.endTime == endTime
  {
    if !IsCourseCode(courseCode) then Err("course_code: String should match pattern '^[A-Z]{4}\\d{4}$'")
    else if !InCreditRange(credits) then Err("credits: Input should be between 1 and 6")
    else if !InYearRange(year) then Err("year: Input should be between 2020 and 2030")
    else if maxEnrollment.Some? && maxEnrollment.value < 1 then Err("max_enrollment: Input should be greater than or equal to 1")
    else if currentEnrollment < 0 then Err("current_enrollment: Input should be greater than or equal to 0")
    else Ok(CourseCreate(courseCode, title, description, instructor, credits, semester, year, maxEnrollment,
                         currentEnrollment, meetingDays, startTime, endTime, location, prerequisites, active))
  }

  /** A course given only its required fields has no enrolment, meets on no day, has
      no prerequisites and is active. */
  lemma CourseCreateDefaults(courseCode: string, title: string, instructor: string, credits: int,
                             semester: Semester, year: int)
    ensures var r := NewCourseCreate(courseCode, title, instructor, credits, semester, year);
            && (r.Ok? <==> IsCourseCode(courseCode) && InCreditRange(credits) && InYearRange(year))
            && (r.Ok? ==> && r.value.currentEnrollment == 0 && r.value.maxEnrollment.None?
                          && r.value.meetingDays == [] && r.value.prerequisites == [] && r.value.active)
  {
  }

  /** `CourseBase(**course.model_dump())`: the created course under the id the
      default factory `uuid4` draws (handed in as `id`). */
  function CourseFromCreate(c: CourseCreate, id: Basics.Uuid): (r: Course)
    ensures r.id == id && r.Valid() == c.Valid()
    ensures CreateOf(r) == c
  {
    Course(id, c.courseCode, c.title, c.description, c.instructor, c.credits, c.semester, c.year,
           c.maxEnrollment, c.currentEnrollment, c.meetingDays, c.startTime, c.endTime, c.location,
           c.prerequisites, c.active)
  }

  /** The fields of a stored course without its id. */
  function CreateOf(r: Course): (c: CourseCreate)
    ensures c.Valid() == r.Valid()
  {
    CourseCreate(r.courseCode, r.title, r.description, r.instructor, r.credits, r.semester, r.year,
                 r.maxEnrollment, r.currentEnrollment, r.meetingDays, r.startTime, r.endTime, r.location,
                 r.prerequisites, r.active)
  }

  /** Dropping the id and rebuilding under the same id gives the course back. */
  lemma CourseRoundTrip(r: Course)
    ensures CourseFromCreate(CreateOf(r), r.id) == r
  {
  }

  /** `CourseUpdate` as `model_dump(exclude_unset=True)` sees it: each field is
      either not sent or sent with a value or null. There is no id and no course code. */
  datatype CourseUpdate = CourseUpdate(
    title: Patch<string>,
    description: Patch<string>,
    instructor: Patch<string>,
    credits: Patch<int>,
    semester: Patch<Semester>,
    year: Patch<int>,
    maxEnrollment: Patch<int>,
    currentEnrollment: Patch<int>,
    meetingDays: Patch<seq<DayOfWeek>>,
    startTime: Patch<Basics.TimeOfDay>,
    endTime: Patch<Basics.TimeOfDay>,
    location: Patch<string>,
    prerequisites: Patch<seq<string>>,
    active: Patch<bool>)
  {
    /** The update's own validation: a sent credits, year or enrolment value must
        respect its range; null is accepted for every field. */
    predicate Valid()
    {
      && (credits.Assign? && credits.value.Some? ==> InCreditRange(credits.value.value))
      && (year.Assign? && year.value.Some? ==> InYearRange(year.value.value))
      && (maxEnrollment.Assign? && maxEnrollment.value.Some? ==> maxEnrollment.value.value >= 1)
      && (currentEnrollment.Assign? && currentEnrollment.value.Some? ==> currentEnrollment.value.value >= 0)
    }

    /** The update sends null for a field a stored course may not hold null in. */
    predicate ClearsRequired()
    {
      || Clears(title) || Clears(instructor) || Clears(credits) || Clears(semester) || Clears(year)
      || Clears(currentEnrollment) || Clears(meetingDays) || Clears(prerequisites) || Clears(active)
    }
  }

  /** The empty update: no field sent. */
  const NoCourseChange := CourseUpdate(Keep, Keep, Keep, Keep, Keep, Keep, Keep, Keep, Keep, Keep, Keep, Keep, Keep, Keep)

  /** `stored.update(update.model_dump(exclude_unset=True))`: the sent fields
      replace the stored ones. None when a non-nullable field was sent as null, as
      the merged dictionary then cannot be a course. */
  function Overlay(c: Course, u: CourseUpdate): (r: Option<Course>)
    ensures r.None? <==> u.ClearsRequired()
    ensures r.Some? ==> r.value.id == c.id && r.value.courseCode == c.courseCode
  {
    var title := Pick(u.title, c.title);
    var instructor := Pick(u.instructor, c.instructor);
    var credits := Pick(u.credits, c.credits);
    var semester := Pick(u.semester, c.semester);
    var year := Pick(u.year, c.year);
    var currentEnrollment := Pick(u.currentEnrollment, c.currentEnrollment);
    var meetingDays := Pick(u.meetingDays, c.meetingDays);
    var prerequisites := Pick(u.prerequisites, c.prerequisites);
    var active := Pick(u.active, c.active);
    if || title.None? || instructor.None? || credits.None? || semester.None? || year.None?
       || currentEnrollment.None? || meetingDays.None? || prerequisites.None? || active.None? then
      None
    else
      Some(Course(c.id, c.courseCode, title.value, PickOptional(u.description, c.description),
                  instructor.value, credits.value, semester.value, year.value,
                  PickOptional(u.maxEnrollment, c.maxEnrollment), currentEnrollment.value,
                  meetingDays.value, PickOptional(u.startTime, c.startTime),
                  PickOptional(u.endTime, c.endTime), PickOptional(u.location, c.location),
                  prerequisites.value, active.value))
  }

  /** Overlaying an update on its own result changes nothing more. */
  lemma OverlayIdempotent(c: Course, u: CourseUpdate)
    requires Overlay(c, u).Some?
    ensures Overlay(Overlay(c, u).value, u) == Overlay(c, u)
  {
  }

  /** `CourseBase(**stored)` after the overlay: the merged record is validated
      again. It fails when a non-nullable field was sent as null or a constraint is
      broken; otherwise the id and the code keep their values. */
  function MergeCourse(c: Course, u: CourseUpdate): (r: Result<Course, string>)
    ensures u.ClearsRequired() ==> r.Err?
    ensures r.Ok? ==> r.value.Valid() && r.value.id == c.id && r.value.courseCode == c.courseCode
  {
    match Overlay(c, u)
    case None => Err("validation error: a field that may not be null was sent as null")
    case Some(merged) =>
      if merged.Valid() then Ok(merged) else Err("validation error: a field constraint is not met")
  }

  /** A valid update to a valid course succeeds exactly when it sends no null for
      a non-nullable field. */
  lemma MergeSucceeds(c: Course, u: CourseUpdate)
    requires c.Valid() && u.Valid()
    ensures MergeCourse(c, u).Ok? <==> !u.ClearsRequired()
  {
  }

  /** The merge overwrites exactly the fields the update sends; every other field
      keeps its stored value. */
  lemma MergeFollowsUpdate(c: Course, u: CourseUpdate)
    requires MergeCourse(c, u).Ok?
    ensures var m := MergeCourse(c, u).value;
            && Follows(u.title, c.title, m.title)
            && FollowsOptional(u.description, c.description, m.description)
            && Follows(u.instructor, c.instructor, m.instructor)
            && Follows(u.credits, c.credits, m.credits)
            && Follows(u.semester, c.semester, m.semester)
            && Follows(u.year, c.year, m.year)
            && FollowsOptional(u.maxEnrollment, c.maxEnrollment, m.maxEnrollment)
            && Follows(u.currentEnrollment, c.currentEnrollment, m.currentEnrollment)
            && Follows(u.meetingDays, c.meetingDays, m.meetingDays)
            && FollowsOptional(u.startTime, c.startTime, m.startTime)
            && FollowsOptional(u.endTime, c.endTime, m.endTime)
            && FollowsOptional(u.location, c.location, m.location)
            && Follows(u.prerequisites, c.prerequisites, m.prerequisites)
            && Follows(u.active, c.active, m.active)
  {
  }

  /** An update that sends nothing leaves a valid course as it is. */
  lemma MergeNothing(c: Course)
    requires c.Valid()
    ensures MergeCourse(c, NoCourseChange) == Ok(c)
  {
  }

  /** Sending the same update twice has the effect of sending it once. */
  lemma MergeIdempotent(c: Course, u: CourseUpdate)
    requires MergeCourse(c, u).Ok?
    ensures MergeCourse(MergeCourse(c, u).value, u) == MergeCourse(c, u)
  {
    OverlayIdempotent(c, u);
  }
}
