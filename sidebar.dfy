/** The dashboard sidebar: which dashboard tabs the stored role may open, the
    guarded tab switch, the theme toggle and the access label. */
module Sidebar {
  import opened Options
  import opened Text
  import opened Notifications

  /** The ids of the three dashboard tabs. */
  const TabIds: seq<string> := ["student", "parent", "government"]

  /** `roleAccessMap[storedRole] || []`. */
  function AllowedTabs(role: string): seq<string> {
    if role == "student" then ["student"]
    else if role == "parent" then ["parent"]
    else if role == "government" then ["government"]
    else if role == "admin" then ["government"]
    else []
  }

  /** A role opens its own tab, an administrator the government tab, and any
      other role (the empty one included) nothing; so at most one tab is ever
      allowed and it is always one of the three. */
  lemma AllowedTabsExactly(role: string, tab: string)
    ensures tab in AllowedTabs(role) <==> (role in TabIds && tab == role) || (role == "admin" && tab == "government")
    ensures |AllowedTabs(role)| <= 1
    ensures forall t :: t in AllowedTabs(role) ==> t in TabIds
    ensures role !in TabIds && role != "admin" ==> AllowedTabs(role) == []
  {
  }

  /** `localStorage.getItem("userRole") || ""`. */
  function StoredRole(item: Option<string>): (r: string)
    ensures item.Some? ==> r == item.value
    ensures item.None? ==> r == ""
  {
    match item
    case None => ""
    case Some(v) => v
  }

  /** The text under the user's address. */
  function AccessLabel(userRole: string): (r: string)
    ensures userRole == "" ==> r == "Limited Access"
    ensures userRole != "" ==> r == Capitalize(userRole) + " Access" && StartsWith(r, [UpperChar(userRole[0])])
  {
    if userRole == "" then "Limited Access" else Capitalize(userRole) + " Access"
  }

  /** The label capitalises the stored role: "student" reads "Student Access". */
  lemma StudentAccessLabel()
    ensures AccessLabel("student") == "Student Access"
  {
    assert Capitalize("student") == "Student";
  }

  /** The label only capitalises the stored role, so a role spelled "limited"
      reads the same as having none. */
  lemma LimitedReadsAsNone()
    ensures AccessLabel("limited") == AccessLabel("")
  {
    assert Capitalize("limited") == "Limited";
  }

  /** The sidebar's state; `activeTab` and `theme` belong to the page and the
      theme provider and are changed through their setters. */
  class SidebarState {
    var userRole: string
    var allowedRoles: seq<string>
    var mounted: bool
    var activeTab: string
    var theme: Option<string>

    constructor (activeTab: string, theme: Option<string>)
      ensures userRole == "" && allowedRoles == [] && !mounted
      ensures this.activeTab == activeTab && this.theme == theme
    {
      userRole := "";
      allowedRoles := [];
      mounted := false;
      this.activeTab := activeTab;
      this.theme := theme;
    }

    /** The mount effect: reads the stored role and looks up its tabs. */
    method Mount(item: Option<string>)
      modifies this
      ensures userRole == StoredRole(item)
      ensures allowedRoles == AllowedTabs(StoredRole(item))
      ensures mounted
      ensures activeTab == old(activeTab) && theme == old(theme)
    {
      userRole := StoredRole(item);
      allowedRoles := AllowedTabs(userRole);
      mounted := true;
    }

    /** `isTabAccessible`. */
    predicate IsTabAccessible(tabId: string)
      reads this
    {
      tabId in allowedRoles
    }

    /** `handleTabSwitch`: an allowed tab becomes active; any other is refused
        with an error and nothing changes. */
    method TabSwitch(tabId: string) returns (toast: Option<Toast>)
      modifies this
      ensures IsTabAccessible(tabId) ==> activeTab == tabId && toast == None
      ensures !IsTabAccessible(tabId) ==>
                (activeTab == old(activeTab)
                 && toast == Some(Failure("Access denied. You don't have permission to access the " + tabId + " dashboard.")))
      ensures userRole == old(userRole) && allowedRoles == old(allowedRoles)
      ensures mounted == old(mounted) && theme == old(theme)
    {
      if tabId !in allowedRoles {
        toast := Some(Failure("Access denied. You don't have permission to access the " + tabId + " dashboard."));
        return;
      }
      activeTab := tabId;
      toast := None;
    }

    /** `handleThemeToggle`: nothing before mount; afterwards dark becomes light
        and anything else, an unset theme included, becomes dark. */
    method ThemeToggle()
      modifies this
      ensures !old(mounted) ==> theme == old(theme)
      ensures old(mounted) ==> theme == Some(if old(theme) == Some("dark") then "light" else "dark")
      ensures userRole == old(userRole) && allowedRoles == old(allowedRoles)
      ensures mounted == old(mounted) && activeTab == old(activeTab)
    {
      if !mounted {
        return;
      }
      theme := Some(if theme == Some("dark") then "light" else "dark");
    }
  }
}
