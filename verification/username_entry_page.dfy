/**
 * The username entry page: a form whose state is the text typed so far and
 * an error message, over the browser storage. React's state hooks and
 * `navigate` become an explicit page state and a returned navigation.
 */
module UsernameEntryPage {
  import opened JsValues
  import opened JsString
  import opened UserStorage

  const EmptyUsernameError: string := "Username tidak boleh kosong"
  const HomePath: string := "/"

  /** A call to `navigate(to, { replace })`. */
  datatype Navigation = Navigation(to: string, replace: bool)

  datatype PageState = PageState(username: string, error: string, storage: Storage)

  /** The page's reaction to an event: its next state and the navigation it asks for, if any. */
  datatype Effect = Effect(state: PageState, navigation: Option<Navigation>)

  datatype Event =
    | Mount                       // the registration check on first render
    | Change(value: string)       // the input's `onChange`
    | Submit(generated: string)   // the form's `onSubmit`, with the id `saveUser` would generate

  /** Both text fields start empty. */
  function Initial(storage: Storage): (st: PageState)
    ensures st.username == "" && st.error == "" && st.storage == storage
  {
    PageState("", "", storage)
  }

  /** The mount effect: an already-registered user is sent home, replacing this entry in the history. */
  function OnMount(st: PageState): (nav: Option<Navigation>)
    ensures nav.Some? <==> IsUserRegistered(st.storage)
    ensures nav.Some? ==> nav.value == Navigation(HomePath, true)
  {
    if IsUserRegistered(st.storage) then Some(Navigation(HomePath, true)) else None
  }

  /** Typing replaces the text and always clears the error. */
  function OnChange(st: PageState, value: string): (st': PageState)
    ensures st'.username == value && st'.error == ""
    ensures st'.storage == st.storage
  {
    st.(username := value, error := "")
  }

  /**
   * `handleSubmit`: blank input (empty after trimming) only sets the error;
   * otherwise the trimmed name is saved with a generated id and the page
   * navigates home.
   */
  function HandleSubmit(st: PageState, generated: string): (e: Effect)
    ensures AllWhitespace(st.username) <==> e.navigation.None?
    ensures e.state.username == st.username
    ensures e.navigation.Some? ==> e.state.error == st.error
  {
    var name := Trim(st.username);
    TrimBlankIff(st.username);
    if name == "" then
      Effect(st.(error := EmptyUsernameError), None)
    else
      Effect(st.(storage := SaveUser(st.storage, name, Undefined, generated)), Some(Navigation(HomePath, false)))
  }

  function Step(st: PageState, ev: Event): Effect
  {
    match ev
    case Mount => Effect(st, OnMount(st))
    case Change(value) => Effect(OnChange(st, value), None)
    case Submit(generated) => HandleSubmit(st, generated)
  }

  /** A blank submit sets the error, leaves the storage alone and stays on the page. */
  lemma BlankSubmitRejected(st: PageState, generated: string)
    requires Trim(st.username) == ""
    ensures HandleSubmit(st, generated).state.error == EmptyUsernameError
    ensures HandleSubmit(st, generated).state.storage == st.storage
    ensures HandleSubmit(st, generated).navigation == None
  {
  }

  /**
   * A non-blank submit stores exactly the trimmed input with the generated
   * id, registers the user and navigates home.
   */
  lemma SubmitStoresTrimmedName(st: PageState, generated: string)
    requires !AllWhitespace(st.username)
    ensures GetUsername(HandleSubmit(st, generated).state.storage) == Some(Trim(st.username))
    ensures GetUserId(HandleSubmit(st, generated).state.storage) == Some(generated)
    ensures IsUserRegistered(HandleSubmit(st, generated).state.storage)
    ensures HandleSubmit(st, generated).navigation == Some(Navigation(HomePath, false))
  {
    TrimBlankIff(st.username);
    var name := Trim(st.username);
    assert HandleSubmit(st, generated).state.storage == SaveUser(st.storage, name, Undefined, generated);
  }

  /** A submit, blank or not, leaves every key other than the two registration keys alone. */
  lemma SubmitKeepsOtherKeys(st: PageState, generated: string, k: string)
    requires !IsOwnKey(k)
    ensures GetItem(HandleSubmit(st, generated).state.storage, k) == GetItem(st.storage, k)
  {
    var name := Trim(st.username);
    if name != "" {
      OtherKeysUntouched(st.storage, k, name, Undefined, generated);
    }
  }

  /** The stored username, if any, has no whitespace at either end. */
  predicate StoredNameTrimmed(s: Storage)
  {
    UsernameKey in s ==> IsTrimmed(s[UsernameKey])
  }

  /** No page event can store a username with surrounding whitespace. */
  lemma StepKeepsStoredNameTrimmed(st: PageState, ev: Event)
    requires StoredNameTrimmed(st.storage)
    ensures StoredNameTrimmed(Step(st, ev).state.storage)
  {
  }

  /** Whatever the typed text, a successful submit stores a name with no surrounding whitespace. */
  lemma SubmittedNameIsTrimmed(st: PageState, generated: string)
    requires !AllWhitespace(st.username)
    ensures IsTrimmed(HandleSubmit(st, generated).state.storage[UsernameKey])
    ensures Trim(HandleSubmit(st, generated).state.storage[UsernameKey]) == HandleSubmit(st, generated).state.storage[UsernameKey]
  {
    TrimBlankIff(st.username);
    TrimIdempotent(st.username);
  }

  /** Editing the input after a rejected submit clears the error again. */
  lemma EditClearsRejection(st: PageState, generated: string, value: string)
    requires AllWhitespace(st.username)
    ensures HandleSubmit(st, generated).state.error == EmptyUsernameError
    ensures Step(HandleSubmit(st, generated).state, Change(value)).state.error == ""
  {
    TrimBlankIff(st.username);
  }
}
