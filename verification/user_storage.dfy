/**
 * The registration record kept in the browser's `localStorage`: a username
 * and a user id under two fixed keys. The storage is an immutable map from
 * key to value, and the random id generator becomes the `generated`
 * argument of SaveUser.
 */
module UserStorage {
  import opened JsValues

  type Storage = map<string, string>

  const UsernameKey: string := "calmlogs_username"
  const UserIdKey: string := "calmlogs_userId"

  /** The two keys this module owns; every other key belongs to someone else. */
  predicate IsOwnKey(k: string)
  {
    k == UsernameKey || k == UserIdKey
  }

  /** `localStorage.getItem(k)`: the stored value, or `null` when the key is missing. */
  function GetItem(s: Storage, k: string): (r: Option<string>)
    ensures r.Some? <==> k in s
    ensures r.Some? ==> r.value == s[k]
  {
    if k in s then Some(s[k]) else None
  }

  /**
   * `saveUser(username, userId)`: stores the username, and stores `userId`
   * when it is a non-empty string, the generated id otherwise.
   */
  function SaveUser(s: Storage, username: string, userId: Nullish<string>, generated: string): (s': Storage)
    ensures s'.Keys == s.Keys + {UsernameKey, UserIdKey}
    ensures s'[UsernameKey] == username
    ensures userId.Defined? && userId.value != "" ==> s'[UserIdKey] == userId.value
    ensures userId.Undefined? || userId.Null? || userId == Defined("") ==> s'[UserIdKey] == generated
    ensures forall k :: k in s && !IsOwnKey(k) ==> s'[k] == s[k]
  {
    var finalUserId := OrElse(userId, generated);
    s[UsernameKey := username][UserIdKey := finalUserId]
  }

  /** `getUsername()`. */
  function GetUsername(s: Storage): (r: Option<string>)
    ensures r.Some? <==> UsernameKey in s
    ensures r.Some? ==> r.value == s[UsernameKey]
  {
    GetItem(s, UsernameKey)
  }

  /** `getUserId()`. */
  function GetUserId(s: Storage): (r: Option<string>)
    ensures r.Some? <==> UserIdKey in s
    ensures r.Some? ==> r.value == s[UserIdKey]
  {
    GetItem(s, UserIdKey)
  }

  /** `isUserRegistered()`: both getters return a non-null value. */
  function IsUserRegistered(s: Storage): (b: bool)
    ensures b <==> UsernameKey in s && UserIdKey in s
  {
    GetUsername(s) != None && GetUserId(s) != None
  }

  /** `clearUser()`: removes the two keys and nothing else. */
  function ClearUser(s: Storage): (s': Storage)
    ensures s'.Keys == s.Keys - {UsernameKey, UserIdKey}
    ensures forall k :: k in s' ==> s'[k] == s[k]
  {
    s - {UsernameKey, UserIdKey}
  }

  /** After saving with a non-empty id, the getters return what was saved. */
  lemma SaveThenGet(s: Storage, username: string, id: string, generated: string)
    requires id != ""
    ensures GetUsername(SaveUser(s, username, Defined(id), generated)) == Some(username)
    ensures GetUserId(SaveUser(s, username, Defined(id), generated)) == Some(id)
  {
  }

  /** A missing or empty id is replaced by the generated one, because `||` treats `""` as missing. */
  lemma SaveWithoutIdUsesGenerated(s: Storage, username: string, userId: Nullish<string>, generated: string)
    requires !IsTruthy(userId)
    ensures GetUserId(SaveUser(s, username, userId, generated)) == Some(generated)
  {
  }

  /** Registration only asks whether the keys exist: an empty username still counts. */
  lemma EmptyUsernameIsRegistered(s: Storage)
    requires GetUsername(s) == Some("") && GetUserId(s).Some?
    ensures IsUserRegistered(s)
  {
  }

  /** Saving always registers, whatever the arguments. */
  lemma SaveRegisters(s: Storage, username: string, userId: Nullish<string>, generated: string)
    ensures IsUserRegistered(SaveUser(s, username, userId, generated))
  {
  }

  /** A second save overwrites both values: the earlier save leaves no trace. */
  lemma SaveLastWriteWins(s: Storage, u1: string, i1: Nullish<string>, g1: string,
                          u2: string, i2: Nullish<string>, g2: string)
    ensures SaveUser(SaveUser(s, u1, i1, g1), u2, i2, g2) == SaveUser(s, u2, i2, g2)
  {
  }

  /** After clearing, both getters return null and the user is not registered. */
  lemma ClearUnregisters(s: Storage)
    ensures GetUsername(ClearUser(s)) == None
    ensures GetUserId(ClearUser(s)) == None
    ensures !IsUserRegistered(ClearUser(s))
  {
  }

  /** Clearing twice is clearing once. */
  lemma ClearIdempotent(s: Storage)
    ensures ClearUser(ClearUser(s)) == ClearUser(s)
  {
  }

  /** Clearing undoes a save: the storage is as if the save never happened. */
  lemma ClearUndoesSave(s: Storage, username: string, userId: Nullish<string>, generated: string)
    ensures ClearUser(SaveUser(s, username, userId, generated)) == ClearUser(s)
  {
  }

  /** Saving overwrites whatever registration there was: it does not matter whether the user was cleared first. */
  lemma SaveIgnoresPriorRegistration(s: Storage, username: string, userId: Nullish<string>, generated: string)
    ensures SaveUser(ClearUser(s), username, userId, generated) == SaveUser(s, username, userId, generated)
  {
  }

  /** Save and clear read and write only the two own keys: every other lookup is unchanged. */
  lemma OtherKeysUntouched(s: Storage, k: string, username: string, userId: Nullish<string>, generated: string)
    requires !IsOwnKey(k)
    ensures GetItem(SaveUser(s, username, userId, generated), k) == GetItem(s, k)
    ensures GetItem(ClearUser(s), k) == GetItem(s, k)
  {
  }

  /** The getters only depend on the two own keys: writing any other key leaves them unchanged. */
  lemma GettersIgnoreOtherKeys(s: Storage, k: string, v: string)
    requires !IsOwnKey(k)
    ensures GetUsername(s[k := v]) == GetUsername(s)
    ensures GetUserId(s[k := v]) == GetUserId(s)
    ensures IsUserRegistered(s[k := v]) == IsUserRegistered(s)
  {
  }
}
