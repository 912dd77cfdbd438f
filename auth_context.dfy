/** AuthContext.js: the session cell (null or the logged-in user) mirrored under the 'user' key. */
module AuthContext {
  import opened Wrappers
  import opened Storage

  /**
   * The mount effect: a truthy stored text is parsed and becomes the session;
   * otherwise the session is left as it is. A parse failure, or JSON that is not a
   * session record, is an error and leaves the session unchanged.
   */
  function RestoredSession(stored: Option<Value>, current: Option<SessionUser>): (r: Result<Option<SessionUser>, string>)
    ensures IsFalsy(stored) ==> r == Ok(current)
    ensures stored == Some(Raw("null")) ==> r == Ok(None)
    ensures forall s :: stored == Some(Stringify(JSession(s))) ==> r == Ok(Some(s))
    ensures r.Ok? && r.value.Some? ==> r.value == current || stored == Some(Stringify(JSession(r.value.value)))
    ensures r.Err? <==> !IsFalsy(stored) && (Parse(stored).Err? || Parse(stored).value.JUsers? || Parse(stored).value.JProfiles?)
  {
    if IsFalsy(stored) then Ok(current)
    else
      match Parse(stored)
      case Err(e) => Err(e)
      case Ok(JNull) => Ok(None)
      case Ok(JSession(s)) => Ok(Some(s))
      case Ok(_) => Err("TypeError")
  }

  class AuthProvider {
    var user: Option<SessionUser>

    /** The provider starts with no session until the mount effect runs. */
    constructor()
      ensures user == None
    {
      user := None;
    }

    /** The mount effect of the provider. */
    method Restore(storage: LocalStorage) returns (ok: bool)
      modifies this
      ensures ok <==> RestoredSession(storage.GetItem(SessionKey), old(user)).Ok?
      ensures ok ==> user == RestoredSession(storage.GetItem(SessionKey), old(user)).value
      ensures !ok ==> user == old(user)
    {
      var stored := storage.GetItem(SessionKey);
      var r := RestoredSession(stored, user);
      ok := r.Ok?;
      if ok {
        user := r.value;
      }
    }

    /** login: the session becomes the given record, and the same record is stored under 'user'. */
    method Login(storage: LocalStorage, userData: SessionUser)
      modifies this, storage
      ensures user == Some(userData)
      ensures storage.items == old(storage.items)[SessionKey := Stringify(JSession(userData))]
    {
      user := Some(userData);
      storage.SetItem(SessionKey, Stringify(JSession(userData)));
    }

    /** logout: the session is cleared and 'user' is removed from storage. */
    method Logout(storage: LocalStorage)
      modifies this, storage
      ensures user == None
      ensures storage.items == old(storage.items) - {SessionKey}
    {
      user := None;
      storage.RemoveItem(SessionKey);
    }
  }

  /** What login stores is what the next mount restores, whatever the session held before. */
  lemma {:induction false} LoginThenRestore(items: map<string, Value>, userData: SessionUser, current: Option<SessionUser>)
    ensures var after := items[SessionKey := Stringify(JSession(userData))];
            RestoredSession(Some(after[SessionKey]), current) == Ok(Some(userData))
  {
    ParseStringify(JSession(userData));
  }

  /** After logout the 'user' key is gone, so the next mount leaves a fresh provider logged out. */
  lemma {:induction false} LogoutThenRestore(items: map<string, Value>)
    ensures var after := items - {SessionKey};
            RestoredSession(if SessionKey in after then Some(after[SessionKey]) else None, None) == Ok(None)
  {
  }
}
