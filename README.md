# RM7 portfolio client: a verified model of its state handling

RM7 is a single-page portfolio site over a hosted backend (Supabase). Visitors see
a list of projects; signed-in admins can create, edit and delete projects and
change the tier (`free`, `paid`, `admin`) of other users. All of its logic is
client-side React state: a toast queue, a session store, and the handlers of the
Projects, Users, Login pages and of the side navigation. This project models
that state in Dafny, one module per source file:

| module | source file | form |
|---|---|---|
| `ToastContext` | `src/contexts/ToastContext.jsx` | class `ToastProvider` over a `seq` of toasts and a `seq` of pending removal timers on a logical millisecond clock; icon lookup as functions |
| `AuthContext` | `src/contexts/AuthContext.jsx` | class `AuthProvider` with the `user`, `profile`, `loading` cells and one method per event handler |
| `AdminUsers` | `src/pages/AdminUsers.jsx` | class `AdminUsersPage`; the email search, tier change and tier icon as functions |
| `Projects` | `src/pages/Projects.jsx` | class `ProjectsPage`; the tech-stack parse, form population and write request as functions |
| `Navbar` | `src/components/Navbar.jsx` | link list, active rule, click effects and avatar as functions; class `NavbarState` for the sign-out sequence |
| `Login` | `src/pages/Login.jsx` | class `LoginPage` with the mode, credentials, error and loading cells |

Helper modules: `Wrappers` (`Option`, and `Outcome`, the result of a backend
call: `Ok(data)` or `Err(message)`), `Seqs` (generic `Map`, `Filter`,
subsequence, with the filter laws), `Text` (the JavaScript string operations the
pages use: `toLowerCase`, `includes`, `trim`, `split`, `join`), and `Navigation`
(a `Router` that records every `navigate(path)` call in order).

Every backend call is a parameter of the handler that makes it: the outcome
the backend gives (`Outcome<…>`), or whether a backend is configured at all
(`configured`). Each asynchronous handler is one atomic transition from the state
before it to the state after it, except the login submit and the tier change, which
are split at their `await` (`BeginSubmit`/`FinishSubmit`,
`BeginTierChange`/`FinishTierChange`) so that the state while the call is in flight
is part of the model. A pending `setTimeout(removeToast, 5000)` is a
`Timer(id, due)`, and `ToastProvider.Advance(now)` lets logical time pass, firing
due timers in order.

The create, update and delete handlers of the Projects page check no tier: the
admin controls are only hidden (the page's `isAdmin`, which is
`AuthContext.IsAdmin`), and the handlers take no profile. There is no lock per id either.

## Model

| member | source | states |
|---|---|---|
| ToastContext.ToastProvider.constructor | src/contexts/ToastContext.jsx:10 | The queue starts empty, with no pending removal, and satisfies the queue invariant. |
| ToastContext.ToastProvider.AddToast | src/contexts/ToastContext.jsx:12-16 | Appends exactly one toast `{id, message, type}` at the end, `type` defaulting to `info`, without de-duplicating; earlier toasts are unchanged and in order; schedules one removal of that id 5000 ms after the current time; keeps the invariant. |
| ToastContext.ToastProvider.RemoveToast | src/contexts/ToastContext.jsx:18-20 | The queue becomes `Without(old queue, id)`; the invariant is kept. |
| ToastContext.Without | src/contexts/ToastContext.jsx:19 | Every toast left was in the queue and has a different id. |
| ToastContext.WithoutExactly | src/contexts/ToastContext.jsx:18-20 | A toast is left if and only if it was there with a different id; each such toast is left as often as before; the result is a subsequence of the queue (relative order kept). |
| ToastContext.WithoutAbsent | src/contexts/ToastContext.jsx:19 | Removing an id no toast carries leaves the queue unchanged. |
| ToastContext.WithoutIdempotent | src/contexts/ToastContext.jsx:19 | Removing twice equals removing once; so the timer of a toast closed by hand removes nothing more. |
| ToastContext.WithoutAppended | src/contexts/ToastContext.jsx:14-19 | Removing the id of the toast just appended gives what removing it before the append gives. |
| ToastContext.WithoutConcat | src/contexts/ToastContext.jsx:19 | Removal distributes over concatenation: the order of the rest is untouched. |
| ToastContext.ToastProvider.Advance | src/contexts/ToastContext.jsx:15 | Moving time to `now` removes exactly the toasts whose id has a removal due by `now` (others keep their order), drops exactly the due timers, keeps the invariant; once 5000 ms have passed since the current time, no toast is shown and no removal is pending. |
| ToastContext.ToastProvider.FireDue | src/contexts/ToastContext.jsx:15 | Fires the due timers one by one, in scheduling order: the due ones are exactly a prefix of the pending list, and the queue loses exactly the ids of that prefix. |
| ToastContext.ToastProvider.FireTimer | src/contexts/ToastContext.jsx:15 | The callback of the next due timer: once the first `k` timers have fired, firing timer `k` (its `removeToast`) leaves the queue without the ids of the first `k + 1`, and keeps the invariant. |
| ToastContext.Settle | src/contexts/ToastContext.jsx:15 | After the due timers fire, dropping them and moving the clock keeps the invariant; the fired ids are the due ids; after a full delay nothing is left. |
| ToastContext.DueToastGone | src/contexts/ToastContext.jsx:15 | A toast whose removal is due is not shown once time has reached it, nor is any toast with the same id. |
| ToastContext.IconFor | src/contexts/ToastContext.jsx:37-50 | The icon as intended: check for `success`, alert for `error`, info for every other type (both directions of each case). |
| ToastContext.IconsLookup | src/contexts/ToastContext.jsx:37-41 | Reading the icon table by key yields nothing exactly for keys that are neither its own nor inherited from the object prototype. |
| ToastContext.IconAsWritten | src/contexts/ToastContext.jsx:50 | As written, every type that is not a prototype member gets the intended icon. |
| ToastContext.InheritedKeyBypassesFallback | src/contexts/ToastContext.jsx:50 | As written, the type `toString` yields the inherited member rather than the info icon the fallback intends. |
| AuthContext.AuthProvider.constructor | src/contexts/AuthContext.jsx:9-11 | No user, no profile, loading; so nothing below the provider is rendered yet. |
| AuthContext.AuthProvider.Mount | src/contexts/AuthContext.jsx:13-17 | Without a backend, loading ends and user and profile stay null; with one, nothing changes until the session answers. |
| AuthContext.AuthProvider.OnInitialSession | src/contexts/AuthContext.jsx:20-24 | Records the session's user; with a user, the profile follows the fetch; without, the profile is kept; loading ends either way. That a row taken is the user's own is assumed of the query's `.eq('id', userId)`, as for `FetchProfile`. |
| AuthContext.AuthProvider.OnAuthStateChange | src/contexts/AuthContext.jsx:28-36 | Records the session's user; with a user, the profile follows the fetch; without one, the profile becomes null; loading ends either way. That a row taken is the user's own is assumed of the query's `.eq('id', userId)`, as for `FetchProfile`. |
| AuthContext.AuthProvider.FetchProfile | src/contexts/AuthContext.jsx:42-58 | The profile follows `ProfileAfterFetch`; the user is untouched; loading ends whatever the outcome. A row it takes has the requested id, which is assumed of the backend's answer to `.eq('id', userId).single()` (a precondition), not established. |
| AuthContext.IsAdmin | src/pages/Projects.jsx:33 | `profile?.tier === 'admin'` (also Navbar.jsx line 27 and AdminUsers.jsx line 19): a null profile is never admin; a present one is admin exactly when its tier is `admin`. |
| AuthContext.AuthProvider.RendersChildren | src/contexts/AuthContext.jsx:82 | The application below the provider is rendered exactly when loading has ended. |
| AuthContext.ProfileAfterFetch | src/contexts/AuthContext.jsx:50-52 | The fetched row is taken only when there is no error and the row is present; otherwise the previous profile is kept. |
| AuthContext.FetchKeepsKnownProfile | src/contexts/AuthContext.jsx:50-52 | A known profile is never lost by a fetch, and a failed or empty fetch keeps an admin an admin. |
| AuthContext.SignInAnswer | src/contexts/AuthContext.jsx:60-74 | Without a backend the answer is the error "Supabase not configured"; with one it is the backend's answer. |
| AuthContext.AuthProvider.SignUp | src/contexts/AuthContext.jsx:60-66 | Returns `SignInAnswer`: "Supabase not configured" without a backend, else the backend's answer; touches no state. |
| AuthContext.AuthProvider.SignIn | src/contexts/AuthContext.jsx:68-74 | Returns `SignInAnswer`, like `SignUp`; touches no state. |
| AuthContext.AuthProvider.SignOut | src/contexts/AuthContext.jsx:76-78 | Calls the backend exactly when one is configured (a no-op otherwise); clears no state itself. |
| AdminUsers.TierIconFor | src/pages/AdminUsers.jsx:66-72 | Shield exactly for `admin`, card exactly for `paid`, the plain user icon exactly for every other tier. |
| AdminUsers.SetTier | src/pages/AdminUsers.jsx:46 | Same length; the user with that id gets the new tier; every other user, and every other field, is unchanged. |
| AdminUsers.RetierChangesOnlyTier | src/pages/AdminUsers.jsx:46 | The function `Retier` maps each user to: the same id, email and creation date; the new tier for the user with that id, the old tier otherwise; any other user is returned unchanged. |
| AdminUsers.SetTierAbsent | src/pages/AdminUsers.jsx:46 | A tier change for an id not in the list leaves the list unchanged. |
| AdminUsers.SetTierLastWins | src/pages/AdminUsers.jsx:46 | Two changes of one user's tier leave the later tier. |
| AdminUsers.FilterUsers | src/pages/AdminUsers.jsx:62-64 | Every user shown is in the list, has an email, and its lower-cased email contains the lower-cased search term. |
| AdminUsers.EmailMatches | src/pages/AdminUsers.jsx:63 | The search predicate rejects every user without an email, and with an empty (lower-cased) term accepts every user with one. |
| AdminUsers.AdminUsersPage.FilteredUsers | src/pages/AdminUsers.jsx:62-64 | The rows of the table are users of the current list whose lower-cased email contains the lower-cased current search term. |
| AdminUsers.FilterUsersExactly | src/pages/AdminUsers.jsx:62-64 | A user is shown if and only if it matches; each match as often as in the list; the result is an order-preserving subsequence of `users`. |
| AdminUsers.FilterUsersEmptyTerm | src/pages/AdminUsers.jsx:63 | With an empty term, exactly the users with an email are shown; a user without one never is. |
| AdminUsers.FilterUsersIgnoresTermCase | src/pages/AdminUsers.jsx:63 | The result does not depend on the case of the search term. |
| AdminUsers.RedirectTarget | src/pages/AdminUsers.jsx:19-21 | A redirect, always to `/`, happens exactly when loading is over and the profile is null or not admin. |
| AdminUsers.AdminUsersPage.constructor | src/pages/AdminUsers.jsx:11-13 | No users, loading, empty search term. |
| AdminUsers.AdminUsersPage.SetSearchTerm | src/pages/AdminUsers.jsx:90 | The search box sets the term and nothing else. |
| AdminUsers.AdminUsersPage.FetchUsers | src/pages/AdminUsers.jsx:28-42 | On success the list becomes the rows, or `[]` for null data; a failed fetch leaves the list unchanged; loading ends either way. Without a backend (where the source's call throws) the supplied outcomes are errors. |
| AdminUsers.AdminUsersPage.BeginTierChange | src/pages/AdminUsers.jsx:44-46 | The optimistic update before the write: the list becomes `SetTier` of itself (only that user's tier changes), and nothing else changes. |
| AdminUsers.AdminUsersPage.FinishTierChange | src/pages/AdminUsers.jsx:48-60 | After the write, exactly one toast: success on remote success (the optimistic list stays, loading untouched); error with the message on failure, after which the list is replaced by the refetched rows (or `[]`), or stays optimistic if the refetch fails too, and loading ends. Without a backend (where the source's call throws) the supplied outcomes are errors. |
| AdminUsers.AdminUsersPage.RunRedirectEffect | src/pages/AdminUsers.jsx:18-22 | Navigates to `/` once exactly when loading is over and the profile is not admin; otherwise does not navigate. |
| Projects.ParseYieldsTechNames | src/pages/Projects.jsx:127 | Every entry of the tech-stack parse is non-empty, trimmed and comma-free. |
| Projects.ParseTechStack | src/pages/Projects.jsx:127 | No entry of the parse is empty (the `filter(s => s)`); `ParseYieldsTechNames`, `ParseKeepsOrder` and `ParseJoin` state the rest. |
| Projects.ParseKeepsOrder | src/pages/Projects.jsx:127 | The parse is a subsequence of the trimmed pieces (input order), and keeps every non-empty piece. |
| Projects.TrimmedPiecesOfJoin | src/pages/Projects.jsx:83 | For a non-empty list whose entries are all trimmed and comma-free: splitting its `', '`-join at commas and trimming each piece gives the list back. |
| Projects.JoinTechStack | src/pages/Projects.jsx:83 | `join(', ')`: an empty list gives `''`, and a non-empty one gives a string starting with its first entry; `ParseJoin` is the round trip. |
| Projects.ParseJoin | src/pages/Projects.jsx:127 | Round trip: parsing the `', '`-join (the form `handleEdit` fills, line 83) of non-empty, trimmed, comma-free strings gives the list. |
| Projects.FormFor | src/pages/Projects.jsx:80-86 | The edit form copies title and description, joins the tech stack with `', '`, and maps a missing link, github or tech stack to `''`. |
| Projects.PayloadOf | src/pages/Projects.jsx:128-134 | The payload copies title, description, link and github from the form and carries the parse of its tech-stack text. |
| Projects.EditThenSaveUnchanged | src/pages/Projects.jsx:127-134 | For a project whose tech-stack entries (if any) are all non-empty, trimmed and comma-free: opening it for editing and saving it untouched sends the project's own fields back, null ones as empty. |
| Projects.AfterFetch | src/pages/Projects.jsx:55-76 | Without a backend, the two placeholder projects; on success, the rows or `[]`; on failure, the placeholders when the list was empty and the list as it was otherwise, so never empty. |
| Projects.RequestFor | src/pages/Projects.jsx:127-148 | An update of the edited project's id exactly when a project is being edited, else an insert; either way with the payload built from the form. |
| Projects.Truthy | src/pages/Projects.jsx:108 | The id held for deletion counts exactly when it is present and not `0`. |
| Projects.ProjectsPage.constructor | src/pages/Projects.jsx:29-49 | No projects, loading, both modals closed, nothing to delete or edited, an empty form, not busy. |
| Projects.ProjectsPage.FetchProjects | src/pages/Projects.jsx:55-76 | The list becomes `AfterFetch` of the outcome; loading ends in every case. |
| Projects.ProjectsPage.HandleEdit | src/pages/Projects.jsx:78-88 | Remembers the project, fills the form with `FormFor` of it, opens the modal. |
| Projects.ProjectsPage.HandleAddNew | src/pages/Projects.jsx:90-100 | No project being edited, every form field `''`, the modal open. |
| Projects.ProjectsPage.ConfirmDelete | src/pages/Projects.jsx:102-105 | Remembers the id and opens the confirmation. |
| Projects.ProjectsPage.HandleDelete | src/pages/Projects.jsx:107-121 | A falsy id does nothing at all; otherwise the list loses exactly the projects with that id only on remote success (unchanged on failure), exactly one toast reports the outcome, and the confirmation closes and forgets the id. Without a backend (where the source's call throws) the supplied outcomes are errors. |
| Projects.DeleteRemovesExactly | src/pages/Projects.jsx:113 | A project is kept if and only if its id differs, as often as before, in the original order. |
| Projects.ProjectsPage.HandleSubmit | src/pages/Projects.jsx:123-158 | Sends `RequestFor` the form; on success refetches (`AfterFetch`), closes the modal and shows one toast, "updated" or "created" by whether a project was being edited; on failure one error toast with the message and the list, loading flag and modal untouched; not busy afterwards either way. Without a backend (where the source's call throws) the supplied outcomes are errors. |
| Navbar.Links | src/components/Navbar.jsx:23-28 | Home, About, Projects in that order, then Users as fourth and last entry exactly for an admin profile. |
| Navbar.UsersLinkIffAdmin | src/components/Navbar.jsx:27 | The Users entry is present if and only if the profile is admin; a null profile never gets it. |
| Navbar.LinkPathsDistinct | src/components/Navbar.jsx:23-28 | No two entries share a path. |
| Navbar.IsActive | src/components/Navbar.jsx:47-49 | The About entry is highlighted exactly when the fragment is `#about`, whatever the path; every other entry exactly when the path is its own. |
| Navbar.AtMostOnePageActive | src/components/Navbar.jsx:47-49 | At most one entry other than About is active; About's activeness depends on the fragment only. |
| Navbar.HomeAndAboutBothActive | src/components/Navbar.jsx:47-49 | At `/` with fragment `#about`, Home and About are both highlighted. |
| Navbar.LinkTarget | src/components/Navbar.jsx:67 | The About entry's link points at `#`; every other entry's at its own path; so the target is `#` exactly for About and for an entry whose own path is `#`. |
| Navbar.ClickEffects | src/components/Navbar.jsx:51-68 | An ordinary entry navigates to its path; About off `/` navigates to `/` then scrolls after 100 ms; About on `/` only scrolls. |
| Navbar.Navigations | src/components/Navbar.jsx:52-60 | The navigations of a list of effects: no more than the effects, each one a navigation effect of the list, none for a list of scrolls only. |
| Navbar.ClickNavigations | src/components/Navbar.jsx:52-60 | The navigations of a click: the entry's path; for About, `/` exactly when off the home page, none on it. |
| Navbar.AboutClickEndsWithScroll | src/components/Navbar.jsx:52-60 | An About click ends with the scroll, and every effect before it is a navigation. |
| Navbar.AccountControlFor | src/components/Navbar.jsx:86-126 | The sign-out button exactly when a user is signed in, and exactly otherwise the sign-in link, which leads to `/login`. |
| Navbar.UpperChar | src/components/Navbar.jsx:100 | `toUpperCase` of one character: a lower-case ASCII letter becomes the matching upper-case letter (code point minus 32); every other character is left alone. |
| Navbar.AvatarAsWritten | src/components/Navbar.jsx:100 | As written: no initial without an email, the upper-cased first letter for a non-empty email, and a render error exactly for the empty email. |
| Navbar.EmptyEmailCrashesAvatar | src/components/Navbar.jsx:100 | As written, an empty email string makes the avatar throw. |
| Navbar.AvatarInitial | src/components/Navbar.jsx:100 | As intended: never an error; an initial exactly for a non-empty email, and then the upper-cased first letter. |
| Navbar.AvatarAgreesWhenRendered | src/components/Navbar.jsx:100 | The intended avatar agrees with the written one wherever the written one renders. |
| Navbar.NavbarState.constructor | src/components/Navbar.jsx:14 | The sign-out confirmation starts closed. |
| Navbar.NavbarState.OpenSignOutConfirm | src/components/Navbar.jsx:107 | The Sign Out button opens the confirmation and changes nothing else. |
| Navbar.NavbarState.CloseSignOutConfirm | src/components/Navbar.jsx:132 | Closing the confirmation changes nothing else. |
| Navbar.NavbarState.ClickLink | src/components/Navbar.jsx:51-68 | The router receives exactly the navigations of `ClickEffects`, in order; a scroll is reported exactly for About, with no delay on `/` and 100 ms elsewhere. |
| Navbar.NavbarState.HandleSignOut | src/components/Navbar.jsx:16-21 | In order: await sign-out, exactly one success toast "Logged out successfully", one navigation to `/`, the confirmation closed. |
| Login.LoginPage.constructor | src/pages/Login.jsx:9-13 | Sign-in mode, empty email and password, no error, not loading. |
| Login.LoginPage.SelectSignIn | src/pages/Login.jsx:54 | Switches to sign-in mode; email, password and everything else untouched. |
| Login.LoginPage.SelectSignUp | src/pages/Login.jsx:60 | Switches to sign-up mode; email, password and everything else untouched. |
| Login.LoginPage.SetEmail | src/pages/Login.jsx:90 | The email field sets the email and nothing else. |
| Login.LoginPage.SetPassword | src/pages/Login.jsx:102 | The password field sets the password and nothing else. |
| Login.LoginPage.BeginSubmit | src/pages/Login.jsx:19-26 | Before the store is called, the error is cleared and loading is on, and the mode the call is made in (sign-in or sign-up) is recorded; nothing else changes. |
| Login.LoginPage.FinishSubmit | src/pages/Login.jsx:24-41 | From the in-flight status (loading, no error), by the mode the call was made in, not the tab shown now: sign-in success navigates to `/projects` with no toast and leaves the tab alone; sign-up success shows one success toast and switches to sign-in mode, without navigating; any failure ("Supabase not configured" without a backend) shows its message as the error with no toast, no navigation and the tab kept; loading is off afterwards; the credentials are kept. |
| Login.SignInSurvivesTabSwitch | src/pages/Login.jsx:25-28 | A click on the Sign Up tab while a sign-in is in flight does not change its outcome: on success it still navigates to `/projects` with no toast, and the tab stays on Sign Up. |
| Text.Trim | src/pages/Projects.jsx:127 | `trim` leaves no white space at either end, and leaves an already trimmed string alone. |
| Text.TrimKeepsChars | src/pages/Projects.jsx:127 | `trim` only removes characters: the result is no longer than the input and every character in it is in the input. |
| Text.TrimIsSlice | src/pages/Projects.jsx:127 | `trim` gives a slice `s[i..j]` of its input with only white space before `i` and after `j`; with `Trim`'s own contract (no white space at either end of the result) this is the longest such slice. |
| Text.Split | src/pages/Projects.jsx:127 | `split(',')` gives at least one piece, and no piece contains the separator. |
| Text.JoinSplit | src/pages/Projects.jsx:127 | Joining the pieces of a split with the separator gives the string back. |
| Text.ContainsAt | src/pages/AdminUsers.jsx:63 | `includes` holds exactly when the needle occurs at some position. |
| Text.LowerIdempotent | src/pages/AdminUsers.jsx:63 | Lower-casing twice is lower-casing once. |
| Text.Lower | src/pages/AdminUsers.jsx:63 | `toLowerCase` keeps the length and maps each character on its own, upper-case ASCII letters to their lower-case ones. |
| Text.Contains | src/pages/AdminUsers.jsx:63 | `includes`: a needle is only found in a haystack at least as long, and a prefix is always found. |
| Text.Join | src/pages/Projects.jsx:83 | `join(sep)`: an empty list gives `''`; a non-empty one starts with its first part, followed by the separator when there are more parts. |

## Left out

- Backend calls (select, order, insert, update, delete, sign-up, sign-in, sign-out, session, auth-change subscription) are not modelled: each is the `Outcome` its caller receives, given as a parameter. Server-side ordering of rows is the backend's concern.
- Pages that call the backend client directly without checking it exists (`fetchUsers`, `handleTierChange`, `handleDelete`, `handleSubmit`) throw a `TypeError` when no backend is configured; that error reaches their `catch`. Those pages read `configured` from the session store they hold (`auth`), and their handlers require the supplied outcome to be an `Err` when it is false, with whatever message the runtime gives; the message text itself is not modelled.
- Toast ids are drawn at random (src/contexts/ToastContext.jsx:13); the model takes the id as a parameter and does not assume ids are unique; a removal drops every toast sharing the id.
- Real timers, asynchronous interleaving and stale closures are modelled only in part. Every handler is one atomic transition except the login submit and the tier change, which are split at their `await` (`Login.LoginPage.BeginSubmit`/`FinishSubmit`, `AdminUsers.AdminUsersPage.BeginTierChange`/`FinishTierChange`), so any other call on the page may come between the two halves. The login submit keeps the mode its call was made in across that gap. What the split does not cover: the closure's stale `users` (src/pages/AdminUsers.jsx:46, 58) is read as the current list, the credentials sent are those current at the answer (they only affect the backend's answer, which is a parameter), and every other handler's `projects`/`users` are the current ones. In particular, the refetch after a failed tier change is not awaited in the source (src/pages/AdminUsers.jsx:58); the model lets it complete inside the handler.
- The About scroll and its 100 ms `setTimeout` are reported as an effect; DOM scrolling and CSS class strings are not modelled.
- Projects.ProjectsPage.HandleSubmit: the request is built from the form before the write in the source; the model computes it after updating the other cells, which is the same value because no step changes the form or the edited project.
- Navbar.NavbarState.HandleSignOut: the backend's sign-out answer is ignored by the source and by the model; a rejected sign-out promise (which would stop the sequence) is not modelled.
- Navbar.NavbarState.HandleSignOut: the order of its four steps is not observable in the model. The session store, the toast queue, the router and the bar are separate objects with no shared log, so the final state is the same in any order; the returned `steps` only records the order in which the method performs them (sign-out awaited, toast, navigation, confirmation closed).
- `fetchProfile` and the session check can also fail by a rejected promise; only the outcomes the code inspects are modelled.
- Unsubscribing from auth changes on unmount (src/contexts/AuthContext.jsx:39) and `console.error` logging are not modelled.
- Text.Lower: only ASCII letters are lower-cased; JavaScript's full Unicode case mapping is not modelled.
- Navbar.UpperChar: only ASCII letters are upper-cased; JavaScript's `toUpperCase` can map one character to several, which is not modelled.
- Strings are sequences of Unicode scalar values, not of UTF-16 code units: for text outside the Basic Multilingual Plane, indexing (the avatar's `[0]`) differs from JavaScript's.
- The Projects modal's field inputs (one `setFormData` per keystroke) and the tier `select` markup are not modelled; the select's change calls `BeginTierChange` and then `FinishTierChange`.
- Date formatting in the users table (src/pages/AdminUsers.jsx:122) is a locale-dependent library call.
- Presentation files are not part of this model: src/pages/Home.jsx, src/components/AboutSection.jsx, src/components/Globe.jsx (floating-point rotation), src/components/SmoothScroll.jsx (floating-point easing), src/components/NoiseBackground.jsx, src/components/GridBackground.jsx, src/components/ConfirmModal.jsx (a stateless view).
- src/App.jsx is a static route table without guards of its own and is not part of this model.
- Behaviour the code has that a reader might not expect, modelled as the code has it: no tier check rejects a create, update or delete before the backend call (the admin controls are only hidden); `signOut` clears no local state itself (the auth-change event does); a failed profile fetch keeps the previous profile; a failed tier change is undone by refetching the list, not by restoring the one field; failed list loads (users, projects, profile) are only logged, not reported in a toast.

## Findings

| source | as written | input that shows it | evidently intended | confidence | as-written member | corrected member |
|---|---|---|---|---|---|---|
| src/contexts/ToastContext.jsx:50 | `icons[type] \|\| icons.info` reads a plain object literal, so a type named like an `Object.prototype` member yields that inherited function, which is truthy and passes the fallback | `addToast('x', 'toString')` | every type other than `success` and `error` gets the info icon | medium: only a caller passing such a type triggers it; not executed | ToastContext.IconAsWritten | ToastContext.IconFor |
| src/components/Navbar.jsx:100 | `user.email?.[0].toUpperCase()` guards only a missing email; for an empty email `[0]` is `undefined` and `.toUpperCase()` throws, taking the navigation down | a signed-in user whose `email` is `""` (for example an account without an email address) | no initial for an empty email | medium: depends on the backend ever reporting an empty email; not executed | Navbar.AvatarAsWritten | Navbar.AvatarInitial |
