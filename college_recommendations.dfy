/** The favourites and comparison lists of the college recommendations page. */
module CollegeRecommendations {
  import opened Notifications
  import opened Selection

  class Selections {
    var favorites: seq<Name>
    var compareList: seq<Name>

    /** Neither list holds a name twice and at most three colleges are compared. */
    ghost predicate Valid()
      reads this
    {
      NoDup(favorites) && NoDup(compareList) && |compareList| <= CompareLimit
    }

    constructor ()
      ensures Valid()
      ensures favorites == [] && compareList == []
    {
      favorites := [];
      compareList := [];
    }

    /** `handleToggleFavorite`: removes a favourite college or appends a new one,
        and reports which happened. */
    method ToggleFavorite(collegeName: Name) returns (toast: Toast)
      modifies this
      ensures favorites == Toggled(old(favorites), collegeName)
      ensures compareList == old(compareList)
      ensures toast == Success(collegeName + " " + (if collegeName in favorites then "added to" else "removed from") + " favorites")
      ensures collegeName in favorites <==> collegeName !in old(favorites)
      ensures old(Valid()) ==> Valid()
    {
      ghost var before := favorites;
      favorites := Toggled(favorites, collegeName);
      var action := if collegeName in favorites then "added to" else "removed from";
      toast := Success(collegeName + " " + action + " favorites");
      if NoDup(before) {
        ToggledNoDup(before, collegeName);
      }
    }

    /** `handleToggleCompare`: removes a compared college, adds one while fewer
        than three are compared, and otherwise keeps the list and shows an error. */
    method ToggleCompare(collegeName: Name) returns (toast: Toast)
      modifies this
      ensures compareList == CompareToggled(old(compareList), collegeName).0
      ensures toast == CompareToast(collegeName, CompareToggled(old(compareList), collegeName).1, "colleges")
      ensures favorites == old(favorites)
      ensures old(Valid()) ==> Valid()
    {
      ghost var before := compareList;
      var (next, outcome) := CompareToggled(compareList, collegeName);
      compareList := next;
      toast := CompareToast(collegeName, outcome, "colleges");
      if |before| <= CompareLimit && NoDup(before) {
        CompareKeepsLimit(before, collegeName);
      }
    }
  }
}
