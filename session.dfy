/**
 * `SessionManager`: the logged-in user's id and name kept in the
 * `MyAppSession` shared preferences. The preferences file is a map from key
 * to stored value; `putString(key, null)` removes the key, as Android does.
 */
module Session {
  import opened Wrappers

  const UserIdKey: string := "user_id"
  const UserNameKey: string := "user_name"

  /** A stored preference: `putInt` or `putString`. */
  datatype Pref = IntPref(i: int) | StringPref(s: string)

  type Prefs = map<string, Pref>

  /** The preferences after `saveUserData(userId, userName)`. */
  function Saved(p: Prefs, userId: int, userName: Option<string>): (q: Prefs)
    ensures UserIdKey in q && q[UserIdKey] == IntPref(userId)
    ensures userName.Some? <==> UserNameKey in q
    ensures userName.Some? ==> q[UserNameKey] == StringPref(userName.value)
    ensures forall k :: k != UserIdKey && k != UserNameKey ==> (k in q <==> k in p) && (k in q ==> q[k] == p[k])
  {
    var withId := p[UserIdKey := IntPref(userId)];
    match userName
    case Some(name) => withId[UserNameKey := StringPref(name)]
    case None => withId - {UserNameKey}
  }

  /** `getInt(USER_ID, -1)` */
  function UserIdOf(p: Prefs): int {
    if UserIdKey in p && p[UserIdKey].IntPref? then p[UserIdKey].i else -1
  }

  /** `getString(USER_NAME, null)` */
  function UserNameOf(p: Prefs): Option<string> {
    if UserNameKey in p && p[UserNameKey].StringPref? then Some(p[UserNameKey].s) else None
  }

  /** What is saved is what is read back, id and name alike. */
  lemma ReadAfterSave(p: Prefs, userId: int, userName: Option<string>)
    ensures UserIdOf(Saved(p, userId, userName)) == userId
    ensures UserNameOf(Saved(p, userId, userName)) == userName
  {
  }

  /** A second save replaces the first completely. */
  lemma LastSaveWins(p: Prefs, id1: int, n1: Option<string>, id2: int, n2: Option<string>)
    ensures Saved(Saved(p, id1, n1), id2, n2) == Saved(p, id2, n2)
  {
  }

  /** After `clearSession` the getters give their defaults: no user. */
  lemma ClearedReadsDefaults()
    ensures UserIdOf(map[]) == -1 && UserNameOf(map[]) == None
  {
  }

  /** Saving the id -1 cannot be told apart from having no session. */
  lemma MinusOneIsNoSession(p: Prefs, userName: Option<string>)
    ensures UserIdOf(Saved(p, -1, userName)) == UserIdOf(map[])
  {
  }

  class SessionManager {
    var prefs: Prefs

    constructor (initial: Prefs)
      ensures prefs == initial
    {
      prefs := initial;
    }

    method SaveUserData(userId: int, userName: Option<string>)
      modifies this
      ensures prefs == Saved(old(prefs), userId, userName)
    {
      prefs := prefs[UserIdKey := IntPref(userId)];
      if userName.Some? {
        prefs := prefs[UserNameKey := StringPref(userName.value)];
      } else {
        prefs := prefs - {UserNameKey};
      }
    }

    /** The saved id, or -1 when none was saved. */
    method GetUserId() returns (id: int)
      ensures id == UserIdOf(prefs)
      ensures UserIdKey !in prefs ==> id == -1
    {
      id := -1;
      if UserIdKey in prefs && prefs[UserIdKey].IntPref? {
        id := prefs[UserIdKey].i;
      }
    }

    /** The saved name, or null when none was saved. */
    method GetUserName() returns (name: Option<string>)
      ensures name == UserNameOf(prefs)
      ensures UserNameKey !in prefs ==> name.None?
    {
      name := None;
      if UserNameKey in prefs && prefs[UserNameKey].StringPref? {
        name := Some(prefs[UserNameKey].s);
      }
    }

    /** `edit().clear().apply()`: every key of the file is removed. */
    method ClearSession()
      modifies this
      ensures prefs == map[]
    {
      prefs := map[];
    }
  }
}
