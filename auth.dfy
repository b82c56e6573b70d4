/** The session kept in the browser's localStorage by the authentication
    helpers of src/app/api/auth.ts: login, the stylist-id lookup, the stored
    user, the logged-in test and logout. */
module Auth {
  import opened Js
  import opened Http
  import opened Platform

  const TOKEN: string := "token"
  const USER_INFO: string := "userInfo"
  const USER_ID: string := "userId"
  const STYLIST_ID: string := "stylist_id"

  /** The four keys a session consists of. */
  const SESSION_KEYS: set<string> := {TOKEN, USER_INFO, USER_ID, STYLIST_ID}

  /** `window.localStorage`: string keys to string values. */
  class LocalStorage {
    var items: map<string, string>

    constructor(initial: map<string, string>)
      ensures items == initial
    {
      items := initial;
    }

    method SetItem(key: string, value: string)
      modifies this
      ensures items == old(items)[key := value]
    {
      items := items[key := value];
    }

    method RemoveItem(key: string)
      modifies this
      ensures items == old(items) - {key}
    {
      items := items - {key};
    }
  }

  /** `getItem(key)` as a condition sees it: a missing key reads as null,
      which is falsy just like the empty string. */
  function Item(items: map<string, string>, key: string): (r: string)
    ensures r != "" <==> key in items && items[key] != ""
    ensures r != "" ==> r == items[key]
  {
    if key in items then items[key] else ""
  }

  // ---------------------------------------------------------------------
  // Reading the session

  /** getCurrentStylistId: stylist_id, else userId, parsed in base 10;
      null (None) when neither is set. */
  function GetCurrentStylistId(items: map<string, string>): (r: Option<Number>)
    ensures r.None? <==> Item(items, STYLIST_ID) == "" && Item(items, USER_ID) == ""
    ensures Item(items, STYLIST_ID) != "" ==> r == Some(ParseInt(items[STYLIST_ID]))
    ensures Item(items, STYLIST_ID) == "" && Item(items, USER_ID) != "" ==> r == Some(ParseInt(items[USER_ID]))
  {
    var id := OrElse(Item(items, STYLIST_ID), Item(items, USER_ID));
    if id == "" then None else Some(ParseInt(id))
  }

  /** isLoggedIn: both a token and a stored user. */
  predicate IsLoggedIn(items: map<string, string>) {
    Item(items, TOKEN) != "" && Item(items, USER_INFO) != ""
  }

  /** getCurrentUser: the parsed userInfo, or null. A userInfo that does not
      parse is removed, and nothing else is touched. */
  method GetCurrentUser(store: LocalStorage, host: Host) returns (user: JsValue)
    modifies store
    ensures Item(old(store.items), USER_INFO) == "" ==>
      user == Null && store.items == old(store.items)
    ensures Item(old(store.items), USER_INFO) != "" && host.parseJson(old(store.items)[USER_INFO]).Some? ==>
      user == host.parseJson(old(store.items)[USER_INFO]).value && store.items == old(store.items)
    ensures Item(old(store.items), USER_INFO) != "" && host.parseJson(old(store.items)[USER_INFO]).None? ==>
      user == Null && store.items == old(store.items) - {USER_INFO}
  {
    var userInfo := Item(store.items, USER_INFO);
    if userInfo != "" {
      var parsed := host.parseJson(userInfo);
      if parsed.Some? {
        return parsed.value;
      }
      store.RemoveItem(USER_INFO);
    }
    return Null;
  }

  /** logout: removes the four session keys. */
  method Logout(store: LocalStorage)
    modifies store
    ensures store.items == old(store.items) - SESSION_KEYS
    ensures forall k :: k !in SESSION_KEYS ==>
      (k in store.items <==> k in old(store.items)) &&
      (k in store.items ==> store.items[k] == old(store.items)[k])
  {
    store.RemoveItem(TOKEN);
    store.RemoveItem(STYLIST_ID);
    store.RemoveItem(USER_INFO);
    store.RemoveItem(USER_ID);
    assert store.items == old(store.items) - SESSION_KEYS;
  }

  /** After logout no one is logged in and there is no stylist id. */
  lemma LoggedOutHasNoSession(items: map<string, string>)
    ensures !IsLoggedIn(items - SESSION_KEYS)
    ensures GetCurrentStylistId(items - SESSION_KEYS).None?
  {
  }

  /** A stylist id stored as the text of a number reads back as that
      number, whichever of the two keys holds it. */
  lemma StoredIdReadsBack(items: map<string, string>, key: string, id: int)
    requires key == STYLIST_ID || (key == USER_ID && Item(items, STYLIST_ID) == "")
    ensures GetCurrentStylistId(items[key := IntToString(id)]) == Some(Finite(id))
  {
    ParseIntRoundTrip(id);
    assert Item(items[key := IntToString(id)], key) == IntToString(id);
  }

  // ---------------------------------------------------------------------
  // Login

  /** The credentials submitted. */
  datatype LoginData = LoginData(email: string, password: string)

  /** The backend's answer to the login POST: `res.status` and `res.data`. */
  datatype LoginReply = LoginReply(status: int, data: JsValue)

  /** One `localStorage.setItem` call. */
  datatype Write = Write(key: string, value: string)

  /** The store after a sequence of writes, in order. */
  function ApplyWrites(items: map<string, string>, writes: seq<Write>): map<string, string>
    decreases |writes|
  {
    if writes == [] then items else ApplyWrites(items[writes[0].key := writes[0].value], writes[1..])
  }

  /** `data.id || data.user?.id || data.stylist?.id || data.userId || data.stylistId` */
  function PossibleId(d: JsValue): JsValue {
    Or(Or(Or(Or(Get(d, "id"), Get(Get(d, "user"), "id")), Get(Get(d, "stylist"), "id")), Get(d, "userId")), Get(d, "stylistId"))
  }

  /** `data.name || data.user?.name || data.stylist?.name || data.username` */
  function PossibleName(d: JsValue): JsValue {
    Or(Or(Or(Get(d, "name"), Get(Get(d, "user"), "name")), Get(Get(d, "stylist"), "name")), Get(d, "username"))
  }

  /** `data.email || data.user?.email || data.stylist?.email` */
  function PossibleEmail(d: JsValue): JsValue {
    Or(Or(Get(d, "email"), Get(Get(d, "user"), "email")), Get(Get(d, "stylist"), "email"))
  }

  /** The own properties of an object; other values have none that are
      modelled. */
  function Fields(v: JsValue): map<string, JsValue> {
    if v.Obj? then v.fields else map[]
  }

  /** `if (!userObj[key] && data[key]) userObj[key] = data[key]` */
  function FillFrom(u: map<string, JsValue>, d: JsValue, key: string): (r: map<string, JsValue>)
    ensures Truthy(Get(Obj(u), key)) || !Truthy(Get(d, key)) ==> r == u
    ensures !Truthy(Get(Obj(u), key)) && Truthy(Get(d, key)) ==> r == u[key := Get(d, key)]
  {
    if !Truthy(Get(Obj(u), key)) && Truthy(Get(d, key)) then u[key := Get(d, key)] else u
  }

  /** The normalised user object of the token branch: `data.user`, else
      `data.stylist`, else `data` itself, with id, name and email filled in
      from the top level where missing. */
  function NormalizedUser(d: JsValue): map<string, JsValue> {
    var u := Fields(Or(Or(Or(Get(d, "user"), Get(d, "stylist")), d), Obj(map[])));
    FillFrom(FillFrom(FillFrom(u, d, "id"), d, "name"), d, "email")
  }

  /** The session written from an id, name and email when the login answer
      carries no token: a temporary token, the user, and the id under both
      userId and stylist_id. */
  function TempSession(id: JsValue, name: JsValue, email: JsValue, now: int, host: Host): seq<Write> {
    [Write(TOKEN, "temp_token_" + IntToString(now)),
     Write(USER_INFO, host.stringify(Obj(map["id" := id, "name" := name, "email" := email]))),
     Write(USER_ID, ToStr(id)),
     Write(STYLIST_ID, ToStr(id))]
  }

  predicate HasToken(d: JsValue) {
    Truthy(d) && Truthy(Get(d, "token"))
  }

  /** The stylist id of the token branch: `data.stylist_id || userObj.stylist_id || data.id`. */
  function TokenStylistId(d: JsValue): JsValue {
    Or(Or(Get(d, "stylist_id"), Get(Obj(NormalizedUser(d)), "stylist_id")), Get(d, "id"))
  }

  /** The storage writes of the token branch: the token, then the
      normalised user and its id when it has one, then the stylist id when
      one is found. */
  function TokenWrites(d: JsValue, host: Host): seq<Write> {
    var u := NormalizedUser(d);
    var userWrites := if Truthy(Get(Obj(u), "id"))
      then [Write(USER_INFO, host.stringify(Obj(u))), Write(USER_ID, ToStr(u["id"]))]
      else [];
    var stylistWrites := if Truthy(TokenStylistId(d)) then [Write(STYLIST_ID, ToStr(TokenStylistId(d)))] else [];
    [Write(TOKEN, ToStr(Get(d, "token")))] + userWrites + stylistWrites
  }

  /** The storage writes of a successful login POST, in the order made. */
  function LoginWrites(submitted: LoginData, reply: LoginReply, profile: Response<JsValue>, now: int, host: Host): seq<Write> {
    var d := reply.data;
    if HasToken(d) then
      TokenWrites(d, host)
    else if Truthy(PossibleId(d)) then
      TempSession(PossibleId(d), Or(PossibleName(d), Str("Stylist User")), Or(PossibleEmail(d), Str(submitted.email)), now, host)
    else if reply.status == 200 && profile.Answer? && Truthy(Get(profile.data, "id")) then
      var p := profile.data;
      TempSession(Get(p, "id"), Or(Get(p, "name"), Str("Stylist User")), Or(Get(p, "email"), Str(submitted.email)), now, host)
    else
      []
  }

  /** Whether login asks the profile endpoint: only when the answer has
      neither a token nor any candidate id, and its status is 200. */
  predicate AsksProfile(reply: LoginReply) {
    !HasToken(reply.data) && !Truthy(PossibleId(reply.data)) && reply.status == 200
  }

  /** What login returns: `res.data`. In the token branch `userObj` is the
      very object held under `data.user` (or `data.stylist`), so the fields
      filled into it show up in the returned data as well. */
  function ReturnedData(d: JsValue): JsValue {
    if !HasToken(d) then d
    else if Truthy(Get(d, "user")) && Get(d, "user").Obj? then Obj(d.fields["user" := Obj(NormalizedUser(d))])
    else if !Truthy(Get(d, "user")) && Truthy(Get(d, "stylist")) && Get(d, "stylist").Obj? then Obj(d.fields["stylist" := Obj(NormalizedUser(d))])
    else d
  }

  /** The token branch of login: store the token, normalise the user
      object, store it and its id when it has one, and store the stylist id
      when one is found. */
  method StoreTokenSession(store: LocalStorage, d: JsValue, host: Host)
    modifies store
    ensures store.items == ApplyWrites(old(store.items), TokenWrites(d, host))
  {
    ghost var start := store.items;
    store.SetItem(TOKEN, ToStr(Get(d, "token")));
    var userObj := NormalizeUserObject(d);
    ghost var done := [Write(TOKEN, ToStr(Get(d, "token")))];
    if Truthy(Get(Obj(userObj), "id")) {
      store.SetItem(USER_INFO, host.stringify(Obj(userObj)));
      store.SetItem(USER_ID, ToStr(userObj["id"]));
      done := done + [Write(USER_INFO, host.stringify(Obj(userObj))), Write(USER_ID, ToStr(userObj["id"]))];
    }
    var stylistId := Or(Or(Get(d, "stylist_id"), Get(Obj(userObj), "stylist_id")), Get(d, "id"));
    if Truthy(stylistId) {
      store.SetItem(STYLIST_ID, ToStr(stylistId));
      done := done + [Write(STYLIST_ID, ToStr(stylistId))];
    }
    assert done == TokenWrites(d, host);
    ApplyWritesSteps(start, done);
  }

  /** `userObj` of the token branch: `data.user || data.stylist || data || {}`,
      then id, name and email copied from the top level where missing. */
  method NormalizeUserObject(d: JsValue) returns (userObj: map<string, JsValue>)
    ensures userObj == NormalizedUser(d)
  {
    userObj := Fields(Or(Or(Or(Get(d, "user"), Get(d, "stylist")), d), Obj(map[])));
    if !Truthy(Get(Obj(userObj), "id")) && Truthy(Get(d, "id")) {
      userObj := userObj["id" := Get(d, "id")];
    }
    if !Truthy(Get(Obj(userObj), "name")) && Truthy(Get(d, "name")) {
      userObj := userObj["name" := Get(d, "name")];
    }
    if !Truthy(Get(Obj(userObj), "email")) && Truthy(Get(d, "email")) {
      userObj := userObj["email" := Get(d, "email")];
    }
  }

  /** A session without a real token: a temporary token, the user, and its
      id under both userId and stylist_id. */
  method StoreTempSession(store: LocalStorage, id: JsValue, name: JsValue, email: JsValue, now: int, host: Host)
    modifies store
    ensures store.items == ApplyWrites(old(store.items), TempSession(id, name, email, now, host))
  {
    ghost var start := store.items;
    var tempToken := "temp_token_" + IntToString(now);
    store.SetItem(TOKEN, tempToken);
    store.SetItem(USER_INFO, host.stringify(Obj(map["id" := id, "name" := name, "email" := email])));
    store.SetItem(USER_ID, ToStr(id));
    store.SetItem(STYLIST_ID, ToStr(id));
    ApplyWritesSteps(start, TempSession(id, name, email, now, host));
  }

  /** login: POST the credentials, then write the session that the answer
      allows; the profile endpoint is asked only as a last resort and its
      failure is ignored. A failing login POST is rethrown with nothing
      written. */
  method Login(store: LocalStorage, submitted: LoginData, post: Response<LoginReply>,
               profile: Response<JsValue>, now: int, host: Host)
    returns (outcome: Outcome<JsValue>, requests: seq<Request>)
    modifies store
    ensures |requests| >= 1 && requests[0] == Request(POST, "/auth/login",
      Obj(map["email" := Str(submitted.email), "password" := Str(submitted.password)]))
    ensures post.Failure? ==> outcome == Rethrown(post.err) && |requests| == 1 && store.items == old(store.items)
    ensures post.Answer? ==> outcome == Done(ReturnedData(post.data.data))
    ensures post.Answer? ==> |requests| == (if AsksProfile(post.data) then 2 else 1)
    ensures post.Answer? && AsksProfile(post.data) ==> requests[1] == Request(GET, "/auth/profile", Undefined)
    ensures post.Answer? ==>
      store.items == ApplyWrites(old(store.items), LoginWrites(submitted, post.data, profile, now, host))
  {
    requests := [Request(POST, "/auth/login",
      Obj(map["email" := Str(submitted.email), "password" := Str(submitted.password)]))];
    if post.Failure? {
      return Rethrown(post.err), requests;
    }
    var reply := post.data;
    var d := reply.data;
    var possibleId := PossibleId(d);
    var possibleName := PossibleName(d);
    var possibleEmail := PossibleEmail(d);
    if Truthy(d) && Truthy(Get(d, "token")) {
      StoreTokenSession(store, d, host);
    } else if Truthy(possibleId) {
      StoreTempSession(store, possibleId, Or(possibleName, Str("Stylist User")), Or(possibleEmail, Str(submitted.email)), now, host);
    } else if reply.status == 200 {
      requests := requests + [Request(GET, "/auth/profile", Undefined)];
      if profile.Answer? && Truthy(Get(profile.data, "id")) {
        var p := profile.data;
        StoreTempSession(store, Get(p, "id"), Or(Get(p, "name"), Str("Stylist User")), Or(Get(p, "email"), Str(submitted.email)), now, host);
      }
    }
    outcome := Done(ReturnedData(d));
  }

  /** Unfolding ApplyWrites over up to four writes made one after another. */
  lemma ApplyWritesSteps(items: map<string, string>, writes: seq<Write>)
    requires |writes| <= 4
    ensures |writes| == 0 ==> ApplyWrites(items, writes) == items
    ensures |writes| == 1 ==> ApplyWrites(items, writes) == items[writes[0].key := writes[0].value]
    ensures |writes| == 2 ==> (ApplyWrites(items, writes) ==
      items[writes[0].key := writes[0].value][writes[1].key := writes[1].value])
    ensures |writes| == 3 ==> (ApplyWrites(items, writes) ==
      items[writes[0].key := writes[0].value][writes[1].key := writes[1].value][writes[2].key := writes[2].value])
    ensures |writes| == 4 ==> (ApplyWrites(items, writes) ==
      items[writes[0].key := writes[0].value][writes[1].key := writes[1].value][writes[2].key := writes[2].value][writes[3].key := writes[3].value])
    decreases |writes|
  {
    if writes != [] {
      ApplyWritesSteps(items[writes[0].key := writes[0].value], writes[1..]);
    }
  }

  /** Writes confined to a set of keys leave every other key as it was. */
  lemma {:induction false} ApplyWritesOutside(items: map<string, string>, writes: seq<Write>, keys: set<string>)
    requires forall i :: 0 <= i < |writes| ==> writes[i].key in keys
    ensures ApplyWrites(items, writes) - keys == items - keys
    decreases |writes|
  {
    if writes != [] {
      var next := items[writes[0].key := writes[0].value];
      assert next - keys == items - keys;
      ApplyWritesOutside(next, writes[1..], keys);
    }
  }

  /** Login writes nothing but the four session keys. */
  lemma LoginWritesSessionKeys(submitted: LoginData, reply: LoginReply, profile: Response<JsValue>, now: int, host: Host)
    ensures forall i :: 0 <= i < |LoginWrites(submitted, reply, profile, now, host)| ==>
      LoginWrites(submitted, reply, profile, now, host)[i].key in SESSION_KEYS
  {
  }

  /** Logging out after a login leaves the store as logging out before it
      would have: login touches only what logout removes. */
  lemma {:induction false} LogoutUndoesLogin(items: map<string, string>, submitted: LoginData, reply: LoginReply,
                                         profile: Response<JsValue>, now: int, host: Host)
    ensures ApplyWrites(items, LoginWrites(submitted, reply, profile, now, host)) - SESSION_KEYS == items - SESSION_KEYS
  {
    LoginWritesSessionKeys(submitted, reply, profile, now, host);
    ApplyWritesOutside(items, LoginWrites(submitted, reply, profile, now, host), SESSION_KEYS);
  }

  /** With a token in the answer the token is written first; the user and
      its id are written together or not at all, exactly when the normalised
      user has an id. Without a token but with a candidate id, the session
      is the temporary one for that id. */
  lemma LoginBranches(submitted: LoginData, reply: LoginReply, profile: Response<JsValue>, now: int, host: Host)
    ensures HasToken(reply.data) ==>
      LoginWrites(submitted, reply, profile, now, host)[0] == Write(TOKEN, ToStr(Get(reply.data, "token")))
    ensures HasToken(reply.data) ==>
      (|LoginWrites(submitted, reply, profile, now, host)| >= 3 <==> Truthy(Get(Obj(NormalizedUser(reply.data)), "id")))
    ensures !HasToken(reply.data) && Truthy(PossibleId(reply.data)) ==>
      LoginWrites(submitted, reply, profile, now, host) ==
        TempSession(PossibleId(reply.data), Or(PossibleName(reply.data), Str("Stylist User")),
                    Or(PossibleEmail(reply.data), Str(submitted.email)), now, host)
    ensures !HasToken(reply.data) && !Truthy(PossibleId(reply.data)) && !AsksProfile(reply) ==>
      LoginWrites(submitted, reply, profile, now, host) == []
  {
  }

  /** A temporary session is a logged-in session whose stylist id is the
      candidate id, read back as a number when it was one. */
  lemma {:induction false} TempSessionLogsIn(items: map<string, string>, id: int, name: JsValue, email: JsValue, now: int, host: Host)
    requires host.stringify(Obj(map["id" := Num(id), "name" := name, "email" := email])) != ""
    ensures IsLoggedIn(ApplyWrites(items, TempSession(Num(id), name, email, now, host)))
    ensures GetCurrentStylistId(ApplyWrites(items, TempSession(Num(id), name, email, now, host))) == Some(Finite(id))
  {
    var ws := TempSession(Num(id), name, email, now, host);
    ApplyWritesSteps(items, ws);
    var after := ApplyWrites(items, ws);
    assert after[STYLIST_ID] == IntToString(id);
    ParseIntRoundTrip(id);
  }
}
