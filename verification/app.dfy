/** The application shell (App.tsx): the session state, profile creation at
    login, and what the shell shows for a given state. */
module App {
  import opened Types
  import opened ProfileTree

  /** The screen component `renderScreen` hands the active profile to. */
  datatype Page = DashboardPage | RecordsPage | HealocAIPage | EmergencyCardPage | ProfilePage

  /** What the shell renders. */
  datatype View =
    | LoginView
    | LoadingView(text: string)
    | MainView(page: Page, active: HealthProfile, emergencyOverlay: bool)

  /** `renderScreen`: each screen has its own page. The `default` branch (back
      to the dashboard) serves values outside the enum, which a `Screen` here
      cannot hold. */
  function PageFor(s: Screen): (pg: Page)
    ensures s == DashboardScreen <==> pg == DashboardPage
    ensures s == RecordsScreen <==> pg == RecordsPage
    ensures s == HealocAIScreen <==> pg == HealocAIPage
    ensures s == QRCodeScreen <==> pg == EmergencyCardPage
    ensures s == ProfileScreen <==> pg == ProfilePage
  {
    match s
    case DashboardScreen => DashboardPage
    case RecordsScreen => RecordsPage
    case HealocAIScreen => HealocAIPage
    case QRCodeScreen => EmergencyCardPage
    case ProfileScreen => ProfilePage
  }

  const GenericLoadingText := "Loading profile..."

  /** The fallback text while the selector resolves to nothing. */
  function OwnLoadingText(name: string): string
  {
    "Loading " + name + "'s profile..."
  }

  /** The fallback's test: a falsy selector (`null` or the empty string) or
      the root's id. */
  predicate OwnsFallback(u: UserProfile, sel: Selector)
  {
    sel == None || sel == Some("") || sel == Some(u.profile.id)
  }

  /** The fallback's root-id test never decides anything: the root's id
      always resolves, so while loading the user's own text shows exactly for
      a falsy selector, and the generic text for an id nobody carries. */
  lemma FallbackTextIff(u: UserProfile, sel: Selector, screen: Screen, emergency: bool)
    ensures
      var v := Render(Some(u), sel, screen, emergency);
      v.LoadingView? ==> (v.text == OwnLoadingText(u.profile.name) <==> sel == None || sel == Some(""))
  {
    var v := Render(Some(u), sel, screen, emergency);
    if v.LoadingView? && !(sel == None || sel == Some("")) {
      assert |v.text| != |OwnLoadingText(u.profile.name)|;
    }
  }

  /** The render: the login screen while there is no user; the loading
      fallback while the selector resolves to no profile (the user's own
      loading text for a falsy or root selector, a generic one otherwise);
      else the current screen's page for the active profile, with the
      emergency overlay when it is on. */
  function Render(user: Option<UserProfile>, sel: Selector, screen: Screen, emergency: bool): (v: View)
    ensures v == LoginView <==> user.None?
    ensures v.MainView? <==> user.Some? && Resolve(user.value, sel).Some?
    ensures v.MainView? ==>
      Resolve(user.value, sel) == Some(v.active) && v.page == PageFor(screen) && v.emergencyOverlay == emergency
    ensures v.LoadingView? && OwnsFallback(user.value, sel) ==>
      v.text == OwnLoadingText(user.value.profile.name)
    ensures v.LoadingView? && !OwnsFallback(user.value, sel) ==>
      v.text == GenericLoadingText
  {
    match user
    case None => LoginView
    case Some(u) =>
      match Resolve(u, sel)
      case None =>
        if OwnsFallback(u, sel) then LoadingView(OwnLoadingText(u.profile.name))
        else LoadingView(GenericLoadingText)
      case Some(p) => MainView(PageFor(screen), p, emergency)
  }

  /** `handleCreateProfile`'s new root: the given name and email, an id
      `user_<stamp>`, empty date of birth and blood type, no contacts, no
      entries and no family members. */
  function NewUserProfile(name: string, email: string, stamp: string): (u: UserProfile)
    ensures u.profile.name == name && u.email == email
    ensures "user_" <= u.profile.id
    ensures u.profile.dob == "" && u.profile.bloodType == ""
    ensures u.profile.emergencyContacts == [] && HasNoEntries(u.profile) && u.familyMembers == []
  {
    UserProfile(HealthProfile("user_" + stamp, name, "", "", [], [], [], [], [], []), email, [])
  }

  /** Right after creation the selector is the new root's id, so the shell
      shows the current page for the user's own profile. */
  lemma CreatedProfileIsShown(name: string, email: string, stamp: string, screen: Screen, emergency: bool)
    ensures var u := NewUserProfile(name, email, stamp);
      Render(Some(u), Some(u.profile.id), screen, emergency) == MainView(PageFor(screen), u.profile, emergency)
  {
  }

  /** The header stores `null` when the user picks themselves, and `null`
      matches neither the root's id nor any member's: the shell is stuck on
      the user's own loading text, whatever the profile holds. */
  lemma NullSelectorShowsLoading(u: UserProfile, screen: Screen, emergency: bool)
    ensures Render(Some(u), None, screen, emergency) == LoadingView(OwnLoadingText(u.profile.name))
  {
  }

  /** The session state App keeps in `useState`. */
  class Session {
    var user: Option<UserProfile>
    var currentScreen: Screen
    var isEmergencyMode: bool
    var activeProfileId: Selector
    var theme: Theme

    constructor ()
      ensures user == None && currentScreen == DashboardScreen && !isEmergencyMode
      ensures activeProfileId == None && theme == Light
    {
      user := None;
      currentScreen := DashboardScreen;
      isEmergencyMode := false;
      activeProfileId := None;
      theme := Light;
    }

    /** What the shell shows now. */
    function Shown(): View
      reads this
    {
      Render(user, activeProfileId, currentScreen, isEmergencyMode)
    }

    /** `handleCreateProfile`: installs the new root and selects it. */
    method CreateProfile(name: string, email: string, stamp: string)
      modifies this`user, this`activeProfileId
      ensures user == Some(NewUserProfile(name, email, stamp))
      ensures activeProfileId == Some(user.value.profile.id)
      ensures Shown() == MainView(PageFor(currentScreen), user.value.profile, isEmergencyMode)
    {
      var u := NewUserProfile(name, email, stamp);
      user := Some(u);
      activeProfileId := Some(u.profile.id);
    }

    /** `setActiveProfileId`, called by the header. Nothing else writes the
        selector, so one that resolves to nothing is never reset. */
    method SetActiveProfileId(sel: Selector)
      modifies this`activeProfileId
      ensures activeProfileId == sel
    {
      activeProfileId := sel;
    }

    /** `setUser`, called with the new root each screen computes. */
    method SetUser(u: UserProfile)
      modifies this`user
      ensures user == Some(u)
    {
      user := Some(u);
    }

    /** `setCurrentScreen`. */
    method Navigate(s: Screen)
      modifies this`currentScreen
      ensures currentScreen == s
    {
      currentScreen := s;
    }

    /** `setIsEmergencyMode`: the bottom bar opens the overlay, its close
        button shuts it. */
    method SetEmergencyMode(on: bool)
      modifies this`isEmergencyMode
      ensures isEmergencyMode == on
    {
      isEmergencyMode := on;
    }

    /** `setTheme`. */
    method SetTheme(t: Theme)
      modifies this`theme
      ensures theme == t
    {
      theme := t;
    }
  }
}
