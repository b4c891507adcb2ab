/**
 * The side navigation (src/components/Navbar.jsx): which links it shows for a
 * profile, which of them is highlighted for a location, what a click on a link
 * does, which account control it shows, and the sign-out sequence behind the
 * confirmation dialog.
 */
module Navbar {
  import opened Wrappers
  import opened ToastContext
  import opened AuthContext
  import opened Navigation

  /** A navigation entry: where it leads and what it says (its icon is presentation). */
  datatype NavLink = NavLink(path: string, caption: string)

  const HOME: NavLink := NavLink("/", "Home")
  const ABOUT: NavLink := NavLink("/#about", "About")
  const PROJECTS: NavLink := NavLink("/projects", "Projects")
  const USERS: NavLink := NavLink("/users", "Users")

  /** The path that marks the in-page About entry. */
  const ABOUT_PATH: string := "/#about"
  /** The fragment that marks the About section as the current one. */
  const ABOUT_HASH: string := "#about"
  /** How long the About click waits after navigating home before it scrolls. */
  const SCROLL_DELAY_MS: nat := 100

  const SIGNED_OUT_MESSAGE: string := "Logged out successfully"

  /** `links`: Home, About, Projects, and Users last for an admin profile only. */
  function Links(profile: Option<Profile>): (r: seq<NavLink>)
    ensures |r| == if IsAdmin(profile) then 4 else 3
    ensures r[..3] == [HOME, ABOUT, PROJECTS]
    ensures IsAdmin(profile) ==> r[3] == USERS
  {
    [HOME, ABOUT, PROJECTS] + (if IsAdmin(profile) then [USERS] else [])
  }

  /** The Users link is offered exactly to admins; without a profile it never is. */
  lemma UsersLinkIffAdmin(profile: Option<Profile>)
    ensures USERS in Links(profile) <==> IsAdmin(profile)
    ensures profile == None ==> USERS !in Links(profile)
  {
  }

  /** No two links of the list lead to the same place (their paths are the React keys). */
  lemma LinkPathsDistinct(profile: Option<Profile>)
    ensures forall i, j :: 0 <= i < j < |Links(profile)| ==> Links(profile)[i].path != Links(profile)[j].path
  {
    var r := Links(profile);
    assert r[0] == HOME && r[1] == ABOUT && r[2] == PROJECTS by {
      assert r[..3] == [HOME, ABOUT, PROJECTS];
      assert r[..3][0] == r[0] && r[..3][1] == r[1] && r[..3][2] == r[2];
    }
  }

  /** The part of `useLocation()` the navigation reads. */
  datatype Location = Location(pathname: string, hash: string)

  /**
   * `isActive`: the About entry by the fragment alone, every other entry by the
   * exact path.
   */
  predicate IsActive(link: NavLink, loc: Location)
    ensures link.path == ABOUT_PATH ==> (IsActive(link, loc) <==> loc.hash == ABOUT_HASH)
    ensures link.path != ABOUT_PATH ==> (IsActive(link, loc) <==> loc.pathname == link.path)
  {
    if link.path == ABOUT_PATH then loc.hash == ABOUT_HASH else loc.pathname == link.path
  }

  /**
   * At most one entry other than About is highlighted at a time, and the About
   * entry's highlight depends on the fragment and not on the path.
   */
  lemma AtMostOnePageActive(profile: Option<Profile>, loc: Location)
    ensures forall i, j ::
              (0 <= i < j < |Links(profile)| && Links(profile)[i] != ABOUT && Links(profile)[j] != ABOUT
               && IsActive(Links(profile)[i], loc)) ==> !IsActive(Links(profile)[j], loc)
    ensures forall pathname :: IsActive(ABOUT, Location(pathname, loc.hash)) == IsActive(ABOUT, loc)
  {
    LinkPathsDistinct(profile);
  }

  /** On the home page with the About fragment, both Home and About are highlighted. */
  lemma HomeAndAboutBothActive()
    ensures IsActive(HOME, Location("/", ABOUT_HASH)) && IsActive(ABOUT, Location("/", ABOUT_HASH))
  {
  }

  /** The `to` of an entry's `Link`: the About entry points at `#` and handles its click itself. */
  function LinkTarget(link: NavLink): (to: string)
    ensures link.path == ABOUT_PATH ==> to == "#"
    ensures link.path != ABOUT_PATH ==> to == link.path
    ensures to == "#" <==> link.path == ABOUT_PATH || link.path == "#"
  {
    if link.path == ABOUT_PATH then "#" else link.path
  }

  /** What a click on an entry does, in order. */
  datatype ClickEffect = NavigateTo(path: string) | ScrollToAbout(delayMs: nat)

  /**
   * A click on an entry: an ordinary entry follows its link; About, with the link's
   * default action prevented, scrolls to the section, going home first (and then
   * waiting `SCROLL_DELAY_MS`) when the current page is not the home page.
   */
  function ClickEffects(link: NavLink, pathname: string): (r: seq<ClickEffect>)
    ensures link.path != ABOUT_PATH ==> r == [NavigateTo(link.path)]
    ensures link.path == ABOUT_PATH && pathname != "/" ==> r == [NavigateTo("/"), ScrollToAbout(SCROLL_DELAY_MS)]
    ensures link.path == ABOUT_PATH && pathname == "/" ==> r == [ScrollToAbout(0)]
  {
    if link.path != ABOUT_PATH then [NavigateTo(LinkTarget(link))]
    else if pathname != "/" then [NavigateTo("/"), ScrollToAbout(SCROLL_DELAY_MS)]
    else [ScrollToAbout(0)]
  }

  /** The paths a click's effects navigate to, in order. */
  function Navigations(effects: seq<ClickEffect>): (r: seq<string>)
    ensures |r| <= |effects|
    ensures forall p :: p in r ==> NavigateTo(p) in effects
    ensures (forall e :: e in effects ==> e.ScrollToAbout?) ==> r == []
  {
    if effects == [] then []
    else (if effects[0].NavigateTo? then [effects[0].path] else []) + Navigations(effects[1..])
  }

  /**
   * The navigations of a click: an ordinary entry's own path; for About, home when
   * the current page is not the home page, and none when it is.
   */
  lemma ClickNavigations(link: NavLink, pathname: string)
    ensures Navigations(ClickEffects(link, pathname)) ==
              if link.path != ABOUT_PATH then [link.path]
              else if pathname != "/" then ["/"]
              else []
  {
    var r := ClickEffects(link, pathname);
    if link.path == ABOUT_PATH && pathname != "/" {
      assert r[1..] == [ScrollToAbout(SCROLL_DELAY_MS)];
      assert Navigations(r[1..]) == [] + Navigations(r[1..][1..]);
    } else {
      assert Navigations(r) == (if r[0].NavigateTo? then [r[0].path] else []) + Navigations(r[1..]);
    }
  }

  /** A click on About always ends with a scroll to the section, and is never followed by another. */
  lemma AboutClickEndsWithScroll(pathname: string)
    ensures var r := ClickEffects(ABOUT, pathname);
            && r[|r| - 1].ScrollToAbout?
            && forall i :: 0 <= i < |r| - 1 ==> r[i].NavigateTo?
  {
  }

  /** The sign-in link's target. */
  const SIGN_IN_PATH: string := "/login"

  /** The control at the bottom of the bar. */
  datatype AccountControl = SignOutButton | SignInLink(to: string)

  /**
   * `user ? … : …`: the sign-out button exactly when someone is signed in, and
   * otherwise the link to the sign-in page.
   */
  function AccountControlFor(user: Option<User>): (c: AccountControl)
    ensures c == SignOutButton <==> user.Some?
    ensures c == SignInLink(SIGN_IN_PATH) <==> user.None?
  {
    if user.Some? then SignOutButton else SignInLink(SIGN_IN_PATH)
  }

  /** ASCII `toUpperCase` of one character. */
  function UpperChar(c: char): (u: char)
    ensures 'a' <= c <= 'z' ==> 'A' <= u <= 'Z' && u as int == c as int - 32
    ensures !('a' <= c <= 'z') ==> u == c
  {
    if 'a' <= c <= 'z' then (c as int - 'a' as int + 'A' as int) as char else c
  }

  /** What the avatar bubble shows. */
  datatype Avatar = NoInitial | Initial(c: char) | RenderError

  /**
   * `user.email?.[0].toUpperCase()` as written: the optional chain guards only a
   * missing address, so an empty address reads `undefined` at index 0 and the
   * `toUpperCase` call on it throws, which takes the bar down.
   */
  function AvatarAsWritten(email: Option<string>): (a: Avatar)
    ensures email.None? ==> a == NoInitial
    ensures email.Some? && email.value != "" ==> a == Initial(UpperChar(email.value[0]))
    ensures a == RenderError <==> email == Some("")
  {
    if email.None? then NoInitial
    else if email.value == "" then RenderError
    else Initial(UpperChar(email.value[0]))
  }

  /** An empty address crashes the bar as written. */
  lemma EmptyEmailCrashesAvatar()
    ensures AvatarAsWritten(Some("")) == RenderError
  {
  }

  /** The avatar as intended: the capitalised first letter when there is one, nothing otherwise. */
  function AvatarInitial(email: Option<string>): (a: Avatar)
    ensures a != RenderError
    ensures a.Initial? <==> email.Some? && email.value != ""
    ensures a.Initial? ==> a.c == UpperChar(email.value[0])
  {
    if email.Some? && email.value != "" then Initial(UpperChar(email.value[0])) else NoInitial
  }

  /** The corrected avatar agrees with the written one wherever the written one renders. */
  lemma AvatarAgreesWhenRendered(email: Option<string>)
    ensures AvatarAsWritten(email) != RenderError ==> AvatarAsWritten(email) == AvatarInitial(email)
  {
  }

  /** One observable step of the sign-out sequence. */
  datatype SignOutStep = AwaitSignOut | ShowToast(t: Toast) | GoTo(path: string) | CloseConfirm

  /** The bar's own state and its collaborators. */
  class NavbarState {
    const auth: AuthProvider
    const toasts: ToastProvider
    const router: Router
    var showLogoutConfirm: bool

    constructor (auth: AuthProvider, toasts: ToastProvider, router: Router)
      ensures this.auth == auth && this.toasts == toasts && this.router == router
      ensures !showLogoutConfirm
    {
      this.auth, this.toasts, this.router := auth, toasts, router;
      showLogoutConfirm := false;
    }

    /** The Sign Out button: open the confirmation. */
    method OpenSignOutConfirm()
      modifies this`showLogoutConfirm
      ensures showLogoutConfirm
    {
      showLogoutConfirm := true;
    }

    /** The confirmation's `onClose`: close it and nothing else. */
    method CloseSignOutConfirm()
      modifies this`showLogoutConfirm
      ensures !showLogoutConfirm
    {
      showLogoutConfirm := false;
    }

    /**
     * A click on an entry: the navigations of `ClickEffects` reach the router, in
     * order; the scroll, if any, is returned with its delay.
     */
    method ClickLink(link: NavLink, loc: Location) returns (scroll: Option<nat>)
      modifies router
      ensures router.history == old(router.history) + Navigations(ClickEffects(link, loc.pathname))
      ensures scroll.Some? <==> link.path == ABOUT_PATH
      ensures scroll.Some? ==> scroll.value == (if loc.pathname == "/" then 0 else SCROLL_DELAY_MS)
    {
      ClickNavigations(link, loc.pathname);
      if link.path == ABOUT_PATH {
        if loc.pathname != "/" {
          router.Navigate("/");
          scroll := Some(SCROLL_DELAY_MS);
        } else {
          scroll := Some(0);
        }
      } else {
        router.Navigate(LinkTarget(link));
        scroll := None;
      }
    }

    /**
     * `handleSignOut` (the confirmation's `onConfirm`): wait for the backend's sign-out,
     * then exactly one success toast, then a navigation home, then the confirmation
     * closes. The backend's answer is not inspected.
     */
    method HandleSignOut(toastId: string) returns (steps: seq<SignOutStep>)
      requires toasts.Valid()
      modifies this`showLogoutConfirm, toasts, router
      ensures steps == [AwaitSignOut, ShowToast(Toast(toastId, SIGNED_OUT_MESSAGE, "success")), GoTo("/"), CloseConfirm]
      ensures ToastAdded(toasts, Toast(toastId, SIGNED_OUT_MESSAGE, "success"))
      ensures router.history == old(router.history) + ["/"]
      ensures !showLogoutConfirm
    {
      var _ := auth.SignOut();
      steps := [AwaitSignOut];
      toasts.AddToast(toastId, SIGNED_OUT_MESSAGE, Some("success"));
      steps := steps + [ShowToast(Toast(toastId, SIGNED_OUT_MESSAGE, "success"))];
      router.Navigate("/");
      steps := steps + [GoTo("/")];
      showLogoutConfirm := false;
      steps := steps + [CloseConfirm];
    }
  }
}
