/** The authentication context of src/context/AuthContext.tsx: the `user`
    and `loading` state, kept in step with the session in localStorage. */
module AuthContext {
  import opened Js
  import opened Platform
  import opened Auth

  /** The own keys an object spread copies; spreading any other value
      copies nothing that is modelled. */
  function Spread(v: JsValue): map<string, JsValue> {
    if v.Obj? then v.fields else map[]
  }

  /** The normalised user: defaults for id, name and email, overlaid with
      every key of the stored object, since the spread comes last. */
  function NormalizeUser(stored: JsValue, userId: string): (r: map<string, JsValue>)
    ensures "id" in r && "name" in r && "email" in r
    ensures forall k :: k in Spread(stored) ==> k in r && r[k] == Spread(stored)[k]
    ensures forall k :: k in r ==> k in Spread(stored) || k in {"id", "name", "email"}
  {
    var defaults := map[
      "id" := Or(Or(Get(stored, "id"), Str(userId)), Str("0")),
      "name" := Or(Or(Get(stored, "name"), Get(stored, "username")), Str("Unknown User")),
      "email" := Or(Get(stored, "email"), Str(""))];
    defaults + Spread(stored)
  }

  /** The defaults take effect only for keys the stored object lacks: a
      stored id that is present but falsy (null, "", 0) is kept as it is,
      while a missing one falls back to userId and then to "0". */
  lemma {:induction false} NormalizeUserDefaults(stored: JsValue, userId: string)
    ensures "id" !in Spread(stored) ==>
      NormalizeUser(stored, userId)["id"] == (if userId != "" then Str(userId) else Str("0"))
    ensures "id" in Spread(stored) ==> NormalizeUser(stored, userId)["id"] == Spread(stored)["id"]
    ensures "name" !in Spread(stored) ==>
      NormalizeUser(stored, userId)["name"] == Or(Get(stored, "username"), Str("Unknown User"))
    ensures "email" !in Spread(stored) ==> NormalizeUser(stored, userId)["email"] == Str("")
  {
    var r := NormalizeUser(stored, userId);
    if "id" !in Spread(stored) {
      assert Get(stored, "id") == Undefined;
    }
    if "name" !in Spread(stored) {
      assert Get(stored, "name") == Undefined;
    }
    if "email" !in Spread(stored) {
      assert Get(stored, "email") == Undefined;
    }
  }

  class AuthProvider {
    /** `user`: the normalised user object, or null. */
    var user: Option<map<string, JsValue>>
    var loading: bool
    const store: LocalStorage

    constructor(store: LocalStorage)
      ensures this.store == store && user.None? && loading
    {
      this.store := store;
      user := None;
      loading := true;
    }

    /** isAuthenticated */
    predicate IsAuthenticated()
      reads this
    {
      user.Some?
    }

    /** The user a session restores to: the stored user, normalised, when
        it is truthy and a token is present; None otherwise. */
    static function Restored(stored: JsValue, items: map<string, string>): (r: Option<map<string, JsValue>>)
      ensures r.Some? <==> Truthy(stored) && Item(items, TOKEN) != ""
      ensures r.Some? ==> r.value == NormalizeUser(stored, Item(items, USER_ID))
    {
      if Truthy(stored) && Item(items, TOKEN) != "" then Some(NormalizeUser(stored, Item(items, USER_ID))) else None
    }

    /** The effect on mount: restore the user, or clear the four session
        keys when there is none to restore; loading ends either way. */
    method Mount(host: Host)
      modifies this, store
      ensures !loading
      ensures user == Restored(StoredUser(old(store.items), host), old(store.items))
      ensures user.Some? ==> store.items == AfterRead(old(store.items), host)
      ensures user.None? ==> store.items == old(store.items) - SESSION_KEYS
    {
      var storedUser := GetCurrentUser(store, host);
      var token := Item(store.items, TOKEN);
      var userId := Item(store.items, USER_ID);
      if Truthy(storedUser) && token != "" {
        user := Some(NormalizeUser(storedUser, userId));
      } else {
        user := None;
        ClearSession(store);
      }
      loading := false;
    }

    /** refreshAuthState: the same restoration without clearing anything
        beyond what reading the stored user clears. */
    method RefreshAuthState(host: Host)
      modifies this, store
      ensures loading == old(loading)
      ensures user == Restored(StoredUser(old(store.items), host), old(store.items))
      ensures store.items == AfterRead(old(store.items), host)
    {
      var storedUser := GetCurrentUser(store, host);
      var token := Item(store.items, TOKEN);
      var userId := Item(store.items, USER_ID);
      if Truthy(storedUser) && token != "" {
        user := Some(NormalizeUser(storedUser, userId));
      } else {
        user := None;
      }
    }

    /** loginUser: token, userInfo and userId are written, then stylist_id
        when the user has a truthy one, then the user is set. A user whose
        id is null or undefined makes `id.toString()` throw after the first
        two writes, and the user is not set. */
    method LoginUser(userData: map<string, JsValue>, token: string, host: Host) returns (threw: bool)
      modifies this, store
      ensures threw <==> Get(Obj(userData), "id") in {Null, Undefined}
      ensures threw ==> user == old(user)
      ensures threw ==> store.items == old(store.items)[TOKEN := token][USER_INFO := host.stringify(Obj(userData))]
      ensures !threw ==> user == Some(userData)
      ensures !threw ==> store.items == LoginUserItems(old(store.items), userData, token, host)
      ensures loading == old(loading)
    {
      store.SetItem(TOKEN, token);
      store.SetItem(USER_INFO, host.stringify(Obj(userData)));
      var id := Get(Obj(userData), "id");
      if id == Null || id == Undefined {
        return true;
      }
      store.SetItem(USER_ID, ToStr(id));
      var stylistId := Get(Obj(userData), "stylist_id");
      if Truthy(stylistId) {
        store.SetItem(STYLIST_ID, ToStr(stylistId));
      }
      user := Some(userData);
      return false;
    }

    /** logoutUser */
    method LogoutUser()
      modifies this, store
      ensures user.None? && !IsAuthenticated()
      ensures store.items == old(store.items) - SESSION_KEYS
      ensures loading == old(loading)
    {
      Logout(store);
      user := None;
    }
  }

  /** The clean-up on mount when nothing can be restored: token, userInfo,
      userId and stylist_id are removed, in that order. */
  method ClearSession(store: LocalStorage)
    modifies store
    ensures store.items == old(store.items) - SESSION_KEYS
  {
    store.RemoveItem(TOKEN);
    store.RemoveItem(USER_INFO);
    store.RemoveItem(USER_ID);
    store.RemoveItem(STYLIST_ID);
  }

  /** What getCurrentUser returns for a store. */
  function StoredUser(items: map<string, string>, host: Host): JsValue {
    var info := Item(items, USER_INFO);
    if info != "" && host.parseJson(info).Some? then host.parseJson(info).value else Null
  }

  /** The store after getCurrentUser: a userInfo that does not parse is gone. */
  function AfterRead(items: map<string, string>, host: Host): map<string, string> {
    var info := Item(items, USER_INFO);
    if info != "" && host.parseJson(info).None? then items - {USER_INFO} else items
  }

  /** The store after a loginUser that does not throw. */
  function LoginUserItems(items: map<string, string>, userData: map<string, JsValue>, token: string, host: Host): map<string, string> {
    var written := items[TOKEN := token][USER_INFO := host.stringify(Obj(userData))][USER_ID := ToStr(Get(Obj(userData), "id"))];
    var stylistId := Get(Obj(userData), "stylist_id");
    if Truthy(stylistId) then written[STYLIST_ID := ToStr(stylistId)] else written
  }

  /** A successful loginUser with a non-empty token and a user that
      serialises to non-empty text leaves a logged-in store, and touches no
      key outside the session. */
  lemma LoginUserLogsIn(items: map<string, string>, userData: map<string, JsValue>, token: string, host: Host)
    requires token != "" && host.stringify(Obj(userData)) != ""
    ensures IsLoggedIn(LoginUserItems(items, userData, token, host))
    ensures LoginUserItems(items, userData, token, host) - SESSION_KEYS == items - SESSION_KEYS
  {
    var after := LoginUserItems(items, userData, token, host);
    assert after[TOKEN] == token;
  }

  /** A corrupt userInfo is dropped by the read, and the user is then not
      restored: mount clears the rest of the session too. */
  lemma {:induction false} CorruptUserIsNotRestored(items: map<string, string>, host: Host)
    requires Item(items, USER_INFO) != "" && host.parseJson(items[USER_INFO]).None?
    ensures AuthProvider.Restored(StoredUser(items, host), items).None?
    ensures USER_INFO !in AfterRead(items, host)
  {
    assert StoredUser(items, host) == Null;
  }
}
