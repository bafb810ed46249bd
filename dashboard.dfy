/** The unified dashboard page: how the signed-in user's role is resolved,
    stored and labelled, and which dashboard the active tab shows. */
module Dashboard {
  import opened Options
  import opened Text
  import opened Notifications
  import Sidebar

  /** What the authentication service reported. */
  datatype Auth = SignedOut | SignedIn(email: Option<string>, metadataRole: Option<string>)

  /** The outcome of the profile lookup: an existing profile, or a missing one
      that was then inserted, successfully or not. */
  datatype ProfileLookup = Found(role: string) | Created | CreateFailed

  /** `user.user_metadata?.role || "student"`: an absent or empty role is the
      student role. */
  function MetadataRole(metadataRole: Option<string>): (r: string)
    ensures r != ""
    ensures metadataRole.Some? && metadataRole.value != "" ==> r == metadataRole.value
    ensures metadataRole.None? || metadataRole.value == "" ==> r == "student"
  {
    match metadataRole
    case Some(v) => if v != "" then v else "student"
    case None => "student"
  }

  /** The role after the profile step: an existing profile's role overrides the
      metadata role, which is kept otherwise. */
  function ResolvedRole(metadataRole: Option<string>, lookup: ProfileLookup): string {
    if lookup.Found? then lookup.role else MetadataRole(metadataRole)
  }

  /** `role === "admin" ? "government" : role`. */
  function MapRole(role: string): (r: string)
    ensures r != "admin"
    ensures role != "admin" ==> r == role
  {
    if role == "admin" then "government" else role
  }

  /** `roleLabel`. */
  function RoleLabel(mappedRole: string): (r: string)
    ensures mappedRole == "government" ==> r == "Government Admin"
    ensures mappedRole != "government" ==> r == Capitalize(mappedRole)
  {
    if mappedRole == "government" then "Government Admin" else Capitalize(mappedRole)
  }

  /** The role the dashboard opens with: the profile's role if there is one,
      else the metadata role defaulting to student, with administrators sent
      to the government dashboard. */
  lemma RoleResolution(metadataRole: Option<string>, lookup: ProfileLookup)
    ensures lookup.Found? ==> MapRole(ResolvedRole(metadataRole, lookup)) == MapRole(lookup.role)
    ensures !lookup.Found? && metadataRole.None? ==> MapRole(ResolvedRole(metadataRole, lookup)) == "student"
    ensures !lookup.Found? && metadataRole == Some("admin") ==> MapRole(ResolvedRole(metadataRole, lookup)) == "government"
    ensures MapRole(ResolvedRole(metadataRole, lookup)) != "admin"
    ensures !lookup.Found? ==> MapRole(ResolvedRole(metadataRole, lookup)) != ""
  {
  }

  /** Mapping twice is mapping once. */
  lemma MapRoleIdempotent(role: string)
    ensures MapRole(MapRole(role)) == MapRole(role)
  {
  }

  /** The role labels of the three dashboards. */
  lemma RoleLabels()
    ensures RoleLabel(MapRole("admin")) == "Government Admin"
    ensures RoleLabel("student") == "Student"
    ensures RoleLabel("parent") == "Parent"
  {
  }

  datatype Board = StudentBoard | ParentBoard | GovernmentBoard

  /** `renderDashboard`: each known tab shows its dashboard; anything else the
      student one. */
  function Render(activeTab: string): (b: Board)
    ensures b == ParentBoard <==> activeTab == "parent"
    ensures b == GovernmentBoard <==> activeTab == "government"
    ensures b == StudentBoard <==> activeTab != "parent" && activeTab != "government"
  {
    if activeTab == "student" then StudentBoard
    else if activeTab == "parent" then ParentBoard
    else if activeTab == "government" then GovernmentBoard
    else StudentBoard
  }

  /** The toast the profile step raises: none for an existing profile, the
      welcome for a created one and the error for a failed insert. */
  function ProfileToasts(lookup: ProfileLookup): (r: seq<Toast>)
    ensures r == [] <==> lookup.Found?
    ensures |r| <= 1
    ensures forall i :: 0 <= i < |r| ==> (r[i].Failure? <==> lookup == CreateFailed)
  {
    match lookup
    case Found(_) => []
    case Created => [Success("Welcome! Your profile has been created \U{1F389}")]
    case CreateFailed => [Failure("Error creating profile")]
  }

  /** The page's state; `storage` stands for `localStorage`. */
  class UnifiedDashboard {
    var activeTab: string
    var userEmail: string
    var isLoading: bool
    var storage: map<string, string>

    constructor (storage: map<string, string>)
      ensures activeTab == "student" && userEmail == "" && isLoading
      ensures this.storage == storage
    {
      activeTab := "student";
      userEmail := "";
      isLoading := true;
      this.storage := storage;
    }

    /** `initDashboard` once the service calls have answered. Returns the toasts
        raised and whether the user is sent back to the home page. */
    method Init(auth: Auth, lookup: ProfileLookup) returns (toasts: seq<Toast>, redirectHome: bool)
      modifies this
      ensures !isLoading
      ensures auth == SignedOut ==>
                toasts == [Failure("Please sign in to access the dashboard")] && redirectHome
                && activeTab == old(activeTab) && userEmail == old(userEmail) && storage == old(storage)
      ensures auth.SignedIn? ==>
                var email := if auth.email.Some? then auth.email.value else "";
                var mapped := MapRole(ResolvedRole(auth.metadataRole, lookup));
                !redirectHome && activeTab == mapped && userEmail == email
                && storage == old(storage)["userRole" := mapped]["userEmail" := email]
                && toasts == ProfileToasts(lookup) + [Success("Welcome to your " + RoleLabel(mapped) + " Dashboard!")]
    {
      if auth == SignedOut {
        toasts := [Failure("Please sign in to access the dashboard")];
        redirectHome := true;
        isLoading := false;
        return;
      }
      var email := if auth.email.Some? then auth.email.value else "";
      var role := MetadataRole(auth.metadataRole);
      toasts := [];
      match lookup {
        case Found(r) =>
          role := r;
        case Created =>
          toasts := toasts + [Success("Welcome! Your profile has been created \U{1F389}")];
        case CreateFailed =>
          toasts := toasts + [Failure("Error creating profile")];
      }
      var mappedRole := MapRole(role);
      storage := storage["userRole" := mappedRole]["userEmail" := email];
      activeTab := mappedRole;
      userEmail := email;
      var roleLabel := RoleLabel(mappedRole);
      toasts := toasts + [Success("Welcome to your " + roleLabel + " Dashboard!")];
      redirectHome := false;
      isLoading := false;
    }
  }

  /** The role the page stores is the one the sidebar reads back, and whenever
      it names one of the three dashboards the sidebar allows exactly that tab,
      so the tab the page opens is accessible. An administrator's stored role is
      already "government". */
  lemma StoredRoleOpensActiveTab(metadataRole: Option<string>, lookup: ProfileLookup, tab: string)
    ensures var mapped := MapRole(ResolvedRole(metadataRole, lookup));
            mapped in Sidebar.TabIds ==>
              (tab in Sidebar.AllowedTabs(Sidebar.StoredRole(Some(mapped))) <==> tab == mapped)
    ensures var mapped := MapRole(ResolvedRole(metadataRole, lookup));
            mapped !in Sidebar.TabIds ==> Sidebar.AllowedTabs(Sidebar.StoredRole(Some(mapped))) == []
  {
    Sidebar.AllowedTabsExactly(MapRole(ResolvedRole(metadataRole, lookup)), tab);
  }
}
