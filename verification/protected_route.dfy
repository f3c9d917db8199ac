/**
 * The route guard that wraps every page needing a registered user: it
 * either renders its children or redirects to the username entry page.
 */
module ProtectedRoute {
  import opened JsValues
  import opened UserStorage
  import UsernameEntryPage
  import JsString

  const UsernameEntryPath: string := "/username-entry"

  /** What the guard renders: a `<Navigate to replace>` element, or the children as given. */
  datatype Outcome<T> = Redirect(to: string, replace: bool) | Render(children: T)

  /** `ProtectedRoute({ children })` rendered against the current storage. */
  function Guard<T>(s: Storage, children: T): (o: Outcome<T>)
    ensures o.Redirect? <==> !(UsernameKey in s && UserIdKey in s)
    ensures o.Redirect? ==> o.to == UsernameEntryPath && o.replace
    ensures o.Render? ==> o.children == children
  {
    if !IsUserRegistered(s) then Redirect(UsernameEntryPath, true) else Render(children)
  }

  /** After `clearUser`, every guarded route redirects to the entry page. */
  lemma GuardAfterClear<T>(s: Storage, children: T)
    ensures Guard(ClearUser(s), children) == Redirect(UsernameEntryPath, true)
  {
  }

  /** After any `saveUser`, every guarded route renders its children. */
  lemma GuardAfterSave<T>(s: Storage, username: string, userId: Nullish<string>, generated: string, children: T)
    ensures Guard(SaveUser(s, username, userId, generated), children) == Render(children)
  {
  }

  /** The decision depends on the registration check alone. */
  lemma GuardOnlyReadsRegistration<T>(s1: Storage, s2: Storage, children: T)
    requires IsUserRegistered(s1) == IsUserRegistered(s2)
    ensures Guard(s1, children) == Guard(s2, children)
  {
  }

  /** Writing a key other than the two registration keys never changes the decision. */
  lemma GuardIgnoresOtherKeys<T>(s: Storage, k: string, v: string, children: T)
    requires !IsOwnKey(k)
    ensures Guard(s[k := v], children) == Guard(s, children)
  {
    GettersIgnoreOtherKeys(s, k, v);
  }

  /**
   * The guard and the entry page never bounce a user back and forth: a
   * redirected user is not sent away again by the entry page's mount check,
   * and a registered user who lands on the entry page is sent home and let
   * through by the guard there.
   */
  lemma NoRedirectLoop<T>(s: Storage, children: T)
    ensures Guard(s, children).Redirect? ==> UsernameEntryPage.OnMount(UsernameEntryPage.Initial(s)) == None
    ensures UsernameEntryPage.OnMount(UsernameEntryPage.Initial(s)).Some? ==> Guard(s, children) == Render(children)
  {
  }

  /** A successful submit on the entry page opens every guarded route. */
  lemma SubmitOpensGuard<T>(st: UsernameEntryPage.PageState, generated: string, children: T)
    requires !JsString.AllWhitespace(st.username)
    ensures Guard(UsernameEntryPage.HandleSubmit(st, generated).state.storage, children) == Render(children)
  {
    UsernameEntryPage.SubmitStoresTrimmedName(st, generated);
  }
}
