/** The saved-courses and comparison lists of the course recommendations page. */
module CourseRecommendations {
  import opened Notifications
  import opened Selection

  class Selections {
    var savedCourses: seq<Name>
    var compareList: seq<Name>

    /** Neither list holds a title twice and at most three courses are compared. */
    ghost predicate Valid()
      reads this
    {
      NoDup(savedCourses) && NoDup(compareList) && |compareList| <= CompareLimit
    }

    constructor ()
      ensures Valid()
      ensures savedCourses == [] && compareList == []
    {
      savedCourses := [];
      compareList := [];
    }

    /** `handleSaveCourse`: removes a saved course or appends a new one
        and reports which happened. */
    method SaveCourse(courseTitle: Name) returns (toast: Toast)
      modifies this
      ensures savedCourses == Toggled(old(savedCourses), courseTitle)
      ensures compareList == old(compareList)
      ensures toast == Success(courseTitle + " " + (if courseTitle in savedCourses then "saved" else "removed from saved"))
      ensures courseTitle in savedCourses <==> courseTitle !in old(savedCourses)
      ensures old(Valid()) ==> Valid()
    {
      ghost var before := savedCourses;
      savedCourses := Toggled(savedCourses, courseTitle);
      var action := if courseTitle in savedCourses then "saved" else "removed from saved";
      toast := Success(courseTitle + " " + action);
      if NoDup(before) {
        ToggledNoDup(before, courseTitle);
      }
    }

    /** `handleCompareCourse`: removes a compared course, adds one while fewer
        than three are compared, and otherwise keeps the list and shows an error. */
    method CompareCourse(courseTitle: Name) returns (toast: Toast)
      modifies this
      ensures compareList == CompareToggled(old(compareList), courseTitle).0
      ensures toast == CompareToast(courseTitle, CompareToggled(old(compareList), courseTitle).1, "courses")
      ensures savedCourses == old(savedCourses)
      ensures old(Valid()) ==> Valid()
    {
      ghost var before := compareList;
      var (next, outcome) := CompareToggled(compareList, courseTitle);
      compareList := next;
      toast := CompareToast(courseTitle, outcome, "courses");
      if |before| <= CompareLimit && NoDup(before) {
        CompareKeepsLimit(before, courseTitle);
      }
    }
  }
}
