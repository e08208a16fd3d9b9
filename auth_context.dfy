/** The authentication provider (src/contexts/AuthContext.tsx): the session
    it restores from `localStorage` on mount, the two ways of logging in,
    logging out, and the derived `isAuthenticated` and
    `currentDisplayName`. */
module Auth {
  import opened Js
  import opened ApiTypes
  import opened Storage
  import opened Client
  import BitHarbor

  const TokenKey := "access_token"
  const UserKey := "user_data"
  const ServerKey := "server_url"
  const AdminKey := "admin_data"
  const ParticipantsKey := "participants_data"

  /** The five entries that make up a stored session. */
  const SessionKeys: set<string> := {TokenKey, UserKey, ServerKey, AdminKey, ParticipantsKey}

  /** The key is stored with a truthy (non-empty) value. */
  predicate Stored(items: map<string, string>, key: string) {
    key in items && items[key] != ""
  }

  /** The branch the restore effect takes on the stored entries. */
  datatype RestoreBranch = NoToken | AdminSession | LegacySession | TokenOnly

  /** Without a token nothing is restored; an admin entry wins over the
      legacy pair; the legacy branch needs both the user and the server
      entry. */
  function RestoreBranchOf(items: map<string, string>): (b: RestoreBranch)
    ensures b == NoToken <==> !Stored(items, TokenKey)
    ensures b == AdminSession <==> Stored(items, TokenKey) && Stored(items, AdminKey)
    ensures b == LegacySession <==>
      Stored(items, TokenKey) && !Stored(items, AdminKey) && Stored(items, UserKey) && Stored(items, ServerKey)
  {
    if !Stored(items, TokenKey) then NoToken
    else if Stored(items, AdminKey) then AdminSession
    else if Stored(items, UserKey) && Stored(items, ServerKey) then LegacySession
    else TokenOnly
  }

  /** `!!user || !!admin`: a present record is always truthy. */
  predicate Authenticated(user: Option<User>, admin: Option<Admin>) {
    user.Some? || admin.Some?
  }

  /** `admin?.display_name || user?.Name || null` */
  function DisplayName(user: Option<User>, admin: Option<Admin>): (r: Option<string>)
    ensures r.Some? ==> r.value != ""
    ensures admin.Some? && admin.value.displayName != "" ==> r == Some(admin.value.displayName)
    ensures (admin.None? || admin.value.displayName == "") ==>
      r == (if user.Some? && user.value.name != "" then Some(user.value.name) else None)
  {
    if admin.Some? && admin.value.displayName != "" then Some(admin.value.displayName)
    else if user.Some? && user.value.name != "" then Some(user.value.name)
    else None
  }

  /** A display name is only ever shown for an authenticated session, and
      an authenticated session lacks one only when every name it has is
      empty. */
  lemma DisplayNameNeedsSession(user: Option<User>, admin: Option<Admin>)
    ensures DisplayName(user, admin).Some? ==> Authenticated(user, admin)
    ensures Authenticated(user, admin) && DisplayName(user, admin).None? ==>
      (user.None? || user.value.name == "") && (admin.None? || admin.value.displayName == "")
  {
  }

  /** The storage left by `logout`. */
  function LoggedOut(items: map<string, string>): (r: map<string, string>)
    ensures forall k :: k in r <==> k in items && k !in SessionKeys
    ensures forall k :: k in r ==> r[k] == items[k]
  {
    items - SessionKeys
  }

  /** Removing the five session keys one by one leaves the logged-out storage. */
  lemma RemovingSessionKeys(items: map<string, string>)
    ensures items - {TokenKey} - {UserKey} - {ServerKey} - {AdminKey} - {ParticipantsKey} == LoggedOut(items)
  {
  }

  /** After logging out, the next mount restores nothing. */
  lemma LogoutEndsSession(items: map<string, string>)
    ensures RestoreBranchOf(LoggedOut(items)) == NoToken
  {
    assert TokenKey !in LoggedOut(items);
  }

  /** The three JSON codecs the provider stores its records with. */
  datatype Codecs = Codecs(user: Json<User>, admin: Json<Admin>, participants: Json<seq<Participant>>)

  ghost predicate CodecsRoundTrip(json: Codecs) {
    RoundTrips(json.user) && RoundTrips(json.admin) && RoundTrips(json.participants)
  }

  /** The storage `loginWithEmail` leaves: token, admin, participants
      (`[]` when absent) and the user, in that order. */
  function EmailSessionItems(items: map<string, string>, res: BitHarbor.LoginResult, json: Codecs): map<string, string> {
    items[TokenKey := res.accessToken]
         [AdminKey := json.admin.stringify(res.admin)]
         [ParticipantsKey := json.participants.stringify(OrArray(res.participants, Some([])).value)]
         [UserKey := json.user.stringify(res.user)]
  }

  /** An e-mail session is restored on the next mount as an admin session
      with the same admin, user and participants (`[]` when the login
      carried none). */
  lemma EmailSessionRestores(items: map<string, string>, res: BitHarbor.LoginResult, json: Codecs)
    requires CodecsRoundTrip(json)
    requires res.accessToken != ""
    ensures var after := EmailSessionItems(items, res, json);
      && RestoreBranchOf(after) == AdminSession
      && json.admin.parse(after[AdminKey]) == res.admin
      && Stored(after, UserKey) && json.user.parse(after[UserKey]) == res.user
      && Stored(after, ParticipantsKey)
      && json.participants.parse(after[ParticipantsKey]) == OrArray(res.participants, Some([])).value
  {
    var after := EmailSessionItems(items, res, json);
    assert json.admin.stringify(res.admin) != "" && json.admin.parse(json.admin.stringify(res.admin)) == res.admin;
    assert json.user.stringify(res.user) != "" && json.user.parse(json.user.stringify(res.user)) == res.user;
    var ps := OrArray(res.participants, Some([])).value;
    assert json.participants.stringify(ps) != "" && json.participants.parse(json.participants.stringify(ps)) == ps;
  }

  /** The body of the legacy `/Users/AuthenticateByName` reply. */
  datatype LegacyAuthResponse = LegacyAuthResponse(user: User, accessToken: string, serverId: string)

  /** The credentials the legacy login posts. */
  datatype AuthenticateRequest = AuthenticateRequest(url: string, username: string, pw: string)

  /** The storage a successful legacy login leaves: `connect` records the
      server, then token, user and server are written. */
  function LegacySessionItems(items: map<string, string>, serverUrl: string, data: LegacyAuthResponse, json: Codecs): map<string, string> {
    items[ServerKey := serverUrl][TokenKey := data.accessToken][UserKey := json.user.stringify(data.user)][ServerKey := serverUrl]
  }

  /** A legacy session with a non-empty token and server is restored on the
      next mount through the legacy branch, with the same user. */
  lemma LegacySessionRestores(items: map<string, string>, serverUrl: string, data: LegacyAuthResponse, json: Codecs)
    requires CodecsRoundTrip(json)
    requires data.accessToken != "" && serverUrl != ""
    requires !Stored(items, AdminKey)
    ensures var after := LegacySessionItems(items, serverUrl, data, json);
      && RestoreBranchOf(after) == LegacySession
      && json.user.parse(after[UserKey]) == data.user
      && after[ServerKey] == serverUrl
  {
    assert json.user.stringify(data.user) != "" && json.user.parse(json.user.stringify(data.user)) == data.user;
  }

  class AuthProvider {
    var user: Option<User>
    var admin: Option<Admin>
    var participants: seq<Participant>
    var isLoading: bool
    const api: ApiServiceClient
    const json: Codecs

    /** The provider mounts with no session and loading in progress. */
    constructor(api: ApiServiceClient, json: Codecs)
      ensures this.api == api && this.json == json
      ensures user == None && admin == None && participants == [] && isLoading
    {
      this.api := api;
      this.json := json;
      user := None;
      admin := None;
      participants := [];
      isLoading := true;
    }

    predicate IsAuthenticated()
      reads this
    {
      Authenticated(user, admin)
    }

    function CurrentDisplayName(): Option<string>
      reads this
    {
      DisplayName(user, admin)
    }

    /** `getAccessToken` of the context reads storage, not the client. */
    function GetAccessToken(): Option<string>
      reads api, api.storage
    {
      api.storage.GetItem(TokenKey)
    }

    /** The restore effect run once on mount. `probe` is the reply to the
        legacy branch's `connect`. Loading always ends. */
    method Restore(probe: Fetched<string>)
      modifies this, api, api.storage
      ensures !isLoading
      ensures var items := old(api.storage.items);
        RestoreBranchOf(items) == NoToken ==>
          && user == old(user) && admin == old(admin) && participants == old(participants)
          && api.accessToken == old(api.accessToken) && api.serverUrl == old(api.serverUrl)
          && api.storage.items == items
      ensures var items := old(api.storage.items);
        RestoreBranchOf(items) != NoToken ==> api.accessToken == items[TokenKey]
      ensures var items := old(api.storage.items);
        RestoreBranchOf(items) == AdminSession ==>
          && admin == Some(json.admin.parse(items[AdminKey]))
          && participants == (if Stored(items, ParticipantsKey) then json.participants.parse(items[ParticipantsKey]) else old(participants))
          && user == (if Stored(items, UserKey) then Some(json.user.parse(items[UserKey])) else old(user))
          && api.serverUrl == old(api.serverUrl) && api.storage.items == items
      ensures var items := old(api.storage.items);
        RestoreBranchOf(items) == LegacySession ==>
          && api.serverUrl == items[ServerKey]
          && (probe.Ok() ==>
                user == Some(json.user.parse(items[UserKey])) && admin == old(admin)
                && participants == old(participants) && api.storage.items == items)
          && (!probe.Ok() ==>
                user == None && admin == None && participants == [] && api.storage.items == LoggedOut(items))
      ensures var items := old(api.storage.items);
        RestoreBranchOf(items) == TokenOnly ==>
          && user == old(user) && admin == old(admin) && participants == old(participants)
          && api.serverUrl == old(api.serverUrl) && api.storage.items == items
    {
      var token := api.storage.GetItem(TokenKey);
      var userData := api.storage.GetItem(UserKey);
      var adminData := api.storage.GetItem(AdminKey);
      var participantsData := api.storage.GetItem(ParticipantsKey);
      var serverUrl := api.storage.GetItem(ServerKey);
      ghost var items := api.storage.items;

      if !TruthyText(token) {
        isLoading := false;
        return;
      }
      api.SetAccessToken(token.value);
      assert api.storage.items == items;

      if TruthyText(adminData) {
        admin := Some(json.admin.parse(adminData.value));
        if TruthyText(participantsData) {
          participants := json.participants.parse(participantsData.value);
        }
        if TruthyText(userData) {
          user := Some(json.user.parse(userData.value));
        }
        isLoading := false;
        return;
      }

      if TruthyText(userData) && TruthyText(serverUrl) {
        user := Some(json.user.parse(userData.value));
        var connected := api.Connect(serverUrl.value, probe);
        assert api.storage.items == items;
        if connected.Err? {
          Logout();
        }
        isLoading := false;
        return;
      }

      isLoading := false;
    }

    /** The legacy login: `connect`, then post the credentials. Only a 2xx
        reply saves the session; a failed `connect` or a refused login
        leaves only the server URL that `connect` records. */
    method Login(serverUrl: string, username: string, password: string,
                 probe: Fetched<string>, reply: Fetched<LegacyAuthResponse>)
      returns (r: Result<User>, sent: Option<AuthenticateRequest>)
      modifies this, api, api.storage
      ensures isLoading == old(isLoading) && admin == old(admin) && participants == old(participants)
      ensures api.serverUrl == serverUrl
      ensures sent.Some? <==> probe.Ok()
      ensures sent.Some? ==> sent.value == AuthenticateRequest(serverUrl + "/Users/AuthenticateByName", username, password)
      ensures !probe.Ok() ==> r.Err? && (probe.Response? ==> r.error == "Cannot connect to server")
      ensures probe.Ok() && reply.Response? && !reply.Ok() ==> r == Err("Invalid credentials")
      ensures r.Ok? <==> probe.Ok() && reply.Ok()
      ensures r.Err? ==>
        user == old(user) && api.accessToken == old(api.accessToken)
        && api.storage.items == old(api.storage.items)[ServerKey := serverUrl]
      ensures r.Ok? ==>
        && r.value == reply.body.user && user == Some(reply.body.user)
        && api.accessToken == reply.body.accessToken
        && api.storage.items == LegacySessionItems(old(api.storage.items), serverUrl, reply.body, json)
    {
      sent := None;
      var connected := api.Connect(serverUrl, probe);
      if connected.Err? {
        r := Err(connected.error);
        return;
      }
      sent := Some(AuthenticateRequest(serverUrl + "/Users/AuthenticateByName", username, password));
      match reply
      case Rejected(reason) =>
        r := Err(reason);
      case Response(_, data) =>
        if !reply.Ok() {
          r := Err("Invalid credentials");
          return;
        }
        api.storage.SetItem(TokenKey, data.accessToken);
        api.storage.SetItem(UserKey, json.user.stringify(data.user));
        api.storage.SetItem(ServerKey, serverUrl);
        api.SetAccessToken(data.accessToken);
        user := Some(data.user);
        r := Ok(data.user);
    }

    /** The e-mail login. `outcome` is what the adapter's `login` settles
        with. A failure changes nothing; a success stores token, admin,
        participants (`[]` when absent) and user, sets the client's token,
        and sets user and admin, and participants only when the reply
        carries them. */
    method LoginWithEmail(outcome: Result<BitHarbor.LoginResult>) returns (r: Result<Admin>)
      modifies this, api, api.storage
      ensures isLoading == old(isLoading)
      ensures outcome.Err? ==>
        && r == Err(outcome.error) && user == old(user) && admin == old(admin)
        && participants == old(participants) && api.accessToken == old(api.accessToken)
        && api.storage.items == old(api.storage.items)
      ensures outcome.Ok? ==> var res := outcome.value;
        && r == Ok(res.admin) && user == Some(res.user) && admin == Some(res.admin)
        && participants == (if res.participants.Some? then res.participants.value else old(participants))
        && api.accessToken == res.accessToken && api.serverUrl == old(api.serverUrl)
        && api.storage.items == EmailSessionItems(old(api.storage.items), res, json)
    {
      if outcome.Err? {
        r := Err(outcome.error);
        return;
      }
      var result := outcome.value;
      api.storage.SetItem(TokenKey, result.accessToken);
      api.storage.SetItem(AdminKey, json.admin.stringify(result.admin));
      api.storage.SetItem(ParticipantsKey, json.participants.stringify(OrArray(result.participants, Some([])).value));
      api.storage.SetItem(UserKey, json.user.stringify(result.user));
      user := Some(result.user);
      ghost var written := api.storage.items;
      api.SetAccessToken(result.accessToken);
      assert api.storage.items == written;
      admin := Some(result.admin);
      if result.participants.Some? {
        participants := result.participants.value;
      }
      r := Ok(result.admin);
    }

    /** `logout` removes exactly the five session entries and clears the
        three session slots; the client, its in-memory token included, is
        left alone. */
    method Logout()
      modifies this, api.storage
      ensures api.storage.items == LoggedOut(old(api.storage.items))
      ensures user == None && admin == None && participants == [] && isLoading == old(isLoading)
      ensures !IsAuthenticated() && CurrentDisplayName() == None
    {
      ghost var before := api.storage.items;
      api.storage.RemoveItem(TokenKey);
      api.storage.RemoveItem(UserKey);
      api.storage.RemoveItem(ServerKey);
      api.storage.RemoveItem(AdminKey);
      api.storage.RemoveItem(ParticipantsKey);
      RemovingSessionKeys(before);
      user := None;
      admin := None;
      participants := [];
    }

    /** `refreshAdminInfo`: `outcome` is what the `getMe` call settles with.
        Only a reply carrying an admin changes anything; failures are
        swallowed. */
    method RefreshAdminInfo(outcome: Result<Option<Admin>>)
      modifies this, api.storage
      ensures outcome.Ok? && outcome.value.Some? ==>
        admin == outcome.value && api.storage.items == old(api.storage.items)[AdminKey := json.admin.stringify(outcome.value.value)]
      ensures !(outcome.Ok? && outcome.value.Some?) ==>
        admin == old(admin) && api.storage.items == old(api.storage.items)
      ensures user == old(user) && participants == old(participants) && isLoading == old(isLoading)
    {
      if outcome.Ok? && outcome.value.Some? {
        admin := outcome.value;
        api.storage.SetItem(AdminKey, json.admin.stringify(outcome.value.value));
      }
    }
  }
}
