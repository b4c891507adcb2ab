/**
 * The user-tier table (src/pages/AdminUsers.jsx): the `users` and `loading`
 * cells, the optimistic tier change that falls back to a refetch, the email
 * search, the tier icons and the effect that sends non-admins away.
 */
module AdminUsers {
  import opened Wrappers
  import opened Seqs
  import opened Text
  import opened ToastContext
  import opened AuthContext
  import opened Navigation

  const UPDATED_MESSAGE: string := "User updated successfully"
  const UPDATE_ERROR_PREFIX: string := "Error updating user: "

  /** The icons the `TierIcon` view can show. */
  datatype TierIcon = ShieldIcon | CreditCardIcon | UserIcon

  /** `TierIcon`: a shield for admins, a card for paying users, the plain user icon for anything else. */
  function TierIconFor(tier: string): (icon: TierIcon)
    ensures icon == ShieldIcon <==> tier == "admin"
    ensures icon == CreditCardIcon <==> tier == "paid"
    ensures icon == UserIcon <==> tier != "admin" && tier != "paid"
  {
    if tier == "admin" then ShieldIcon
    else if tier == "paid" then CreditCardIcon
    else UserIcon
  }

  /** `u => u.id === userId ? { ...u, tier: newTier } : u`. */
  function Retier(userId: string, newTier: string): Profile -> Profile
  {
    (u: Profile) => if u.id == userId then u.(tier := newTier) else u
  }

  /** The mapped function changes the tier of the user with that id and nothing else. */
  lemma RetierChangesOnlyTier(userId: string, newTier: string, u: Profile)
    ensures var v := Retier(userId, newTier)(u);
            && v.id == u.id && v.email == u.email && v.createdAt == u.createdAt
            && v.tier == (if u.id == userId then newTier else u.tier)
    ensures u.id != userId ==> Retier(userId, newTier)(u) == u
  {
  }

  /**
   * The optimistic list of `handleTierChange`: same length, the user with that id
   * gets the new tier, and every other user and every other field stay as they were.
   */
  function SetTier(users: seq<Profile>, userId: string, newTier: string): (r: seq<Profile>)
    ensures |r| == |users|
    ensures forall i :: 0 <= i < |users| ==>
      && r[i].id == users[i].id && r[i].email == users[i].email && r[i].createdAt == users[i].createdAt
      && r[i].tier == (if users[i].id == userId then newTier else users[i].tier)
  {
    Map(Retier(userId, newTier), users)
  }

  /** A tier change for an id that is not in the list leaves the list unchanged. */
  lemma SetTierAbsent(users: seq<Profile>, userId: string, newTier: string)
    requires forall i :: 0 <= i < |users| ==> users[i].id != userId
    ensures SetTier(users, userId, newTier) == users
  {
  }

  /** Two changes of the same user's tier leave the later tier: last write wins. */
  lemma SetTierLastWins(users: seq<Profile>, userId: string, first: string, second: string)
    ensures SetTier(SetTier(users, userId, first), userId, second) == SetTier(users, userId, second)
  {
  }

  /** `user => user.email?.toLowerCase().includes(searchTerm.toLowerCase())`. */
  function EmailMatches(searchTerm: string): (f: Profile -> bool)
    ensures forall u: Profile :: f(u) ==> u.email.Some?
    ensures forall u: Profile :: u.email.Some? && Lower(searchTerm) == [] ==> f(u)
  {
    (u: Profile) => u.email.Some? && Contains(Lower(u.email.value), Lower(searchTerm))
  }

  /** `filteredUsers`: the users whose lower-cased email contains the lower-cased search term. */
  function FilterUsers(users: seq<Profile>, searchTerm: string): (r: seq<Profile>)
    ensures forall u :: u in r ==>
      u in users && u.email.Some? && Contains(Lower(u.email.value), Lower(searchTerm))
  {
    Filter(EmailMatches(searchTerm), users)
  }

  /**
   * The search keeps exactly the matching users, each as often as in the list,
   * in the list's order.
   */
  lemma FilterUsersExactly(users: seq<Profile>, searchTerm: string)
    ensures forall u :: u in FilterUsers(users, searchTerm) <==>
      u in users && u.email.Some? && Contains(Lower(u.email.value), Lower(searchTerm))
    ensures forall u :: u in users && EmailMatches(searchTerm)(u) ==>
      multiset(FilterUsers(users, searchTerm))[u] == multiset(users)[u]
    ensures IsSubseq(FilterUsers(users, searchTerm), users)
  {
    FilterCounts(EmailMatches(searchTerm), users);
    FilterIsSubseq(EmailMatches(searchTerm), users);
  }

  /** With an empty search every user with an email is shown; a user without one never is. */
  lemma FilterUsersEmptyTerm(users: seq<Profile>)
    ensures forall u :: u in FilterUsers(users, "") <==> u in users && u.email.Some?
    ensures (forall i :: 0 <= i < |users| ==> users[i].email.Some?) ==> FilterUsers(users, "") == users
  {
    FilterUsersExactly(users, "");
    forall u | u in users && u.email.Some? ensures EmailMatches("")(u) {
      ContainsEmpty(Lower(u.email.value));
    }
    if forall i :: 0 <= i < |users| ==> users[i].email.Some? {
      FilterAll(EmailMatches(""), users);
    }
  }

  /** The search ignores the case of the search term. */
  lemma FilterUsersIgnoresTermCase(users: seq<Profile>, searchTerm: string)
    ensures FilterUsers(users, searchTerm) == FilterUsers(users, Lower(searchTerm))
  {
    LowerIdempotent(searchTerm);
    FilterExt(EmailMatches(searchTerm), EmailMatches(Lower(searchTerm)), users);
  }

  /** The redirect effect: once not loading, a missing or non-admin profile is sent to `/`. */
  function RedirectTarget(loading: bool, profile: Option<Profile>): (r: Option<string>)
    ensures r.Some? <==> !loading && !IsAdmin(profile)
    ensures r.Some? ==> r.value == "/"
  {
    if !loading && !IsAdmin(profile) then Some("/") else None
  }

  /** The `AdminUsers` page's state. */
  class AdminUsersPage {
    var users: seq<Profile>
    var loading: bool
    var searchTerm: string
    const auth: AuthProvider
    const toasts: ToastProvider
    const router: Router

    /** `useState([])`, `useState(true)`, `useState('')`. */
    constructor (auth: AuthProvider, toasts: ToastProvider, router: Router)
      ensures users == [] && loading && searchTerm == ""
      ensures this.auth == auth && this.toasts == toasts && this.router == router
    {
      this.auth, this.toasts, this.router := auth, toasts, router;
      users, loading, searchTerm := [], true, "";
    }

    /** The search box's `onChange`. */
    method SetSearchTerm(term: string)
      modifies this`searchTerm
      ensures searchTerm == term
    {
      searchTerm := term;
    }

    /** The rows the table shows: the listed users whose email matches the current search. */
    function FilteredUsers(): (r: seq<Profile>)
      reads this
      ensures forall u :: u in r ==>
        u in users && u.email.Some? && Contains(Lower(u.email.value), Lower(searchTerm))
    {
      FilterUsers(users, searchTerm)
    }

    /**
     * `fetchUsers()`: the server's rows (or `[]` for null data) on success; on
     * failure the list stays as it was. Loading ends either way.
     */
    method FetchUsers(fetched: Outcome<Option<seq<Profile>>>)
      requires !auth.configured ==> fetched.Err?
      modifies this`users, this`loading
      ensures !loading
      ensures fetched.Ok? ==> users == fetched.data.GetOr([])
      ensures fetched.Err? ==> users == old(users)
    {
      if fetched.Ok? {
        users := fetched.data.GetOr([]);
      }
      loading := false;
    }

    /**
     * `handleTierChange(userId, newTier)` up to its `await`: the optimistic update.
     * The table shows the list with that user's tier changed while the write is in
     * flight; nothing else changes.
     */
    method BeginTierChange(userId: string, newTier: string)
      modifies this`users
      ensures users == SetTier(old(users), userId, newTier)
    {
      users := SetTier(users, userId, newTier);
    }

    /**
     * `handleTierChange` from the write's answer on. On success the optimistic
     * list stays and one success toast is shown; on failure one error toast with
     * the message is shown and the list is refetched: replaced by the server's rows,
     * or kept as it is (optimistic) if the refetch fails too.
     */
    method FinishTierChange(written: Outcome<()>, refetched: Outcome<Option<seq<Profile>>>, toastId: string)
      requires toasts.Valid()
      requires !auth.configured ==> written.Err? && refetched.Err?
      modifies this`users, this`loading, toasts
      ensures written.Ok? ==> && users == old(users) && loading == old(loading)
                              && ToastAdded(toasts, Toast(toastId, UPDATED_MESSAGE, "success"))
      ensures written.Err? ==> && !loading
                               && users == (if refetched.Ok? then refetched.data.GetOr([]) else old(users))
                               && ToastAdded(toasts, Toast(toastId, UPDATE_ERROR_PREFIX + written.message, "error"))
    {
      if written.Ok? {
        toasts.AddToast(toastId, UPDATED_MESSAGE, Some("success"));
      } else {
        toasts.AddToast(toastId, UPDATE_ERROR_PREFIX + written.message, Some("error"));
        FetchUsers(refetched);
      }
    }

    /** The redirect effect, run after a render. */
    method RunRedirectEffect()
      modifies router
      ensures router.history == old(router.history) + (if !loading && !IsAdmin(auth.profile) then ["/"] else [])
    {
      var target := RedirectTarget(loading, auth.profile);
      if target.Some? {
        router.Navigate(target.value);
      }
    }
  }
}
