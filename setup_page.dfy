/** The first-run setup form (src/apps/stable/pages/Setup.tsx): ordered
    validation, then the `/auth/setup` call and the session it stores. */
module SetupPage {
  import opened Js
  import opened Text
  import opened ApiTypes
  import opened Storage
  import opened Client
  import BitHarbor
  import Auth

  const PasswordMismatch := "Passwords do not match"
  const PasswordTooShort := "Password must be at least 8 characters long"
  const DisplayNameRequired := "Display name is required"
  const SetupFallbackError := "Setup failed. The server may already be configured."

  /** The first failing guard, in the order the form checks them; the
      e-mail address is not checked. */
  function ValidateSetup(password: string, confirmPassword: string, displayName: string): (r: Option<string>)
    ensures r.None? <==> password == confirmPassword && |password| >= 8 && !IsBlank(displayName)
    ensures password != confirmPassword ==> r == Some(PasswordMismatch)
    ensures password == confirmPassword && |password| < 8 ==> r == Some(PasswordTooShort)
    ensures password == confirmPassword && |password| >= 8 && IsBlank(displayName) ==> r == Some(DisplayNameRequired)
  {
    if password != confirmPassword then Some(PasswordMismatch)
    else if |password| < 8 then Some(PasswordTooShort)
    else if IsBlank(displayName) then Some(DisplayNameRequired)
    else None
  }

  /** A display name made only of whitespace is refused, and so is any
      display name when the passwords differ, whatever it is. */
  lemma ValidationOrder(password: string, confirmPassword: string, displayName: string)
    ensures (forall k :: 0 <= k < |displayName| ==> IsWhitespace(displayName[k])) && password == confirmPassword && |password| >= 8
      ==> ValidateSetup(password, confirmPassword, displayName) == Some(DisplayNameRequired)
    ensures password != confirmPassword ==>
      forall d :: ValidateSetup(password, confirmPassword, d) == Some(PasswordMismatch)
  {
    BlankIffAllWhitespace(displayName);
  }

  /** What `setup` is called with: the display name untrimmed and no
      participants. */
  datatype SetupRequest = SetupRequest(email: string, password: string, displayName: string, participants: seq<Participant>)

  class SetupForm {
    var error: string
    var isLoading: bool
    var success: bool
    const api: ApiServiceClient
    const adminJson: Json<Admin>

    constructor(api: ApiServiceClient, adminJson: Json<Admin>)
      ensures this.api == api && this.adminJson == adminJson
      ensures error == "" && !isLoading && !success
    {
      this.api := api;
      this.adminJson := adminJson;
      error := "";
      isLoading := false;
      success := false;
    }

    /** `handleSubmit`. `reply` is the backend's answer to the setup call.
        The error is cleared first; a failed guard sets its message and
        sends nothing. A successful setup stores the token and the admin,
        hands the token to the client and keeps the form loading; a failed
        one shows the error, or the fallback text, and stops loading. */
    method HandleSubmit(email: string, password: string, confirmPassword: string, displayName: string,
                        reply: Fetched<BitHarbor.AuthResponse>)
      returns (sent: Option<SetupRequest>)
      modifies this, api, api.storage
      ensures var invalid := ValidateSetup(password, confirmPassword, displayName);
        invalid.Some? ==>
          && sent.None? && error == invalid.value && isLoading == old(isLoading) && success == old(success)
          && api.accessToken == old(api.accessToken) && api.storage.items == old(api.storage.items)
      ensures ValidateSetup(password, confirmPassword, displayName).None? ==>
        sent == Some(SetupRequest(email, password, displayName, []))
      ensures ValidateSetup(password, confirmPassword, displayName).None? && reply.Ok() ==>
        && error == "" && isLoading && success
        && api.accessToken == reply.body.accessToken
        && api.storage.items == old(api.storage.items)[Auth.TokenKey := reply.body.accessToken]
                                   [Auth.AdminKey := adminJson.stringify(reply.body.admin)]
      ensures ValidateSetup(password, confirmPassword, displayName).None? && !reply.Ok() ==>
        && error != "" && !isLoading && success == old(success)
        && (reply.Response? ==> error == "Setup failed")
        && (reply.Rejected? ==> error == (if reply.reason != "" then reply.reason else SetupFallbackError))
        && api.accessToken == old(api.accessToken) && api.storage.items == old(api.storage.items)
    {
      error := "";
      var invalid := ValidateSetup(password, confirmPassword, displayName);
      if invalid.Some? {
        error := invalid.value;
        return None;
      }
      isLoading := true;
      sent := Some(SetupRequest(email, password, displayName, []));
      var result := BitHarbor.Setup(reply);
      match result
      case Ok(res) =>
        api.storage.SetItem(Auth.TokenKey, res.accessToken);
        api.storage.SetItem(Auth.AdminKey, adminJson.stringify(res.admin));
        ghost var written := api.storage.items;
        api.SetAccessToken(res.accessToken);
        assert api.storage.items == written;
        success := true;
      case Err(message) =>
        error := if message != "" then message else SetupFallbackError;
        isLoading := false;
    }
  }
}
