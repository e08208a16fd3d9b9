/** The session slot of the HTTP client (src/lib/api/client.ts): the server
    URL and the access token, kept in memory and mirrored in `localStorage`,
    and the device id. */
module Client {
  import opened Js
  import opened Storage

  const ServerUrlKey := "server_url"
  const AccessTokenKey := "access_token"
  const DeviceIdKey := "deviceId"

  /** The server `getServerUrl` reports while none is set. */
  const FallbackServerUrl := "http://localhost:8096"

  /** The value a field starts with when the constructor restores it from a
      stored entry: only a truthy (present, non-empty) entry is taken. */
  function Restored(saved: Option<string>): (r: string)
    ensures TruthyText(saved) ==> r == saved.value
    ensures !TruthyText(saved) ==> r == ""
  {
    if TruthyText(saved) then saved.value else ""
  }

  /** `server || fallback`. */
  function ServerOrFallback(serverUrl: string): (r: string)
    ensures r != ""
    ensures serverUrl != "" ==> r == serverUrl
    ensures serverUrl == "" ==> r == FallbackServerUrl
  {
    if serverUrl != "" then serverUrl else FallbackServerUrl
  }

  class ApiServiceClient {
    var serverUrl: string
    var accessToken: string
    const storage: LocalStorage

    /** Restores the server URL and the token from storage when they are
        stored and non-empty; otherwise both start empty. */
    constructor(storage: LocalStorage)
      ensures this.storage == storage
      ensures serverUrl == Restored(storage.GetItem(ServerUrlKey))
      ensures accessToken == Restored(storage.GetItem(AccessTokenKey))
    {
      this.storage := storage;
      serverUrl := "";
      accessToken := "";
      var savedUrl := storage.GetItem(ServerUrlKey);
      if TruthyText(savedUrl) {
        serverUrl := savedUrl.value;
      }
      var savedToken := storage.GetItem(AccessTokenKey);
      if TruthyText(savedToken) {
        accessToken := savedToken.value;
      }
    }

    /** The stored device id, or `freshId` (the `crypto.randomUUID()` value,
        never empty) stored as the device id when none is stored. Either way
        the stored id afterwards is the one returned, so a later call
        returns it again. */
    method GetDeviceId(freshId: string) returns (id: string)
      requires freshId != ""
      modifies storage
      ensures TruthyText(old(storage.GetItem(DeviceIdKey))) ==>
        id == old(storage.items[DeviceIdKey]) && storage.items == old(storage.items)
      ensures !TruthyText(old(storage.GetItem(DeviceIdKey))) ==>
        id == freshId && storage.items == old(storage.items)[DeviceIdKey := freshId]
      ensures id != "" && storage.GetItem(DeviceIdKey) == Some(id)
    {
      var stored := storage.GetItem(DeviceIdKey);
      if TruthyText(stored) {
        id := stored.value;
      } else {
        id := freshId;
        storage.SetItem(DeviceIdKey, id);
      }
    }

    /** `connect`: records the URL in the field and in storage, then probes
        `{url}/`; the recording happens before the probe, so it stays even
        when the probe fails. */
    method Connect(url: string, probe: Fetched<string>) returns (r: Result<string>)
      modifies this, storage
      ensures serverUrl == url && accessToken == old(accessToken)
      ensures storage.items == old(storage.items)[ServerUrlKey := url]
      ensures r.Ok? <==> probe.Ok()
      ensures probe.Rejected? ==> r == Err(probe.reason)
      ensures probe.Response? && !probe.Ok() ==> r == Err("Cannot connect to server")
      ensures r.Ok? ==> r.value == probe.body
    {
      serverUrl := url;
      storage.SetItem(ServerUrlKey, url);
      match probe
      case Rejected(reason) =>
        r := Err(reason);
      case Response(_, body) =>
        if !probe.Ok() {
          r := Err("Cannot connect to server");
        } else {
          r := Ok(body);
        }
    }

    /** `setAccessToken`: the field and the stored entry both take the token,
        and `getAccessToken` reports it from then on. */
    method SetAccessToken(token: string)
      modifies this, storage
      ensures accessToken == token && serverUrl == old(serverUrl)
      ensures storage.items == old(storage.items)[AccessTokenKey := token]
      ensures GetAccessToken() == token
    {
      accessToken := token;
      storage.SetItem(AccessTokenKey, token);
    }

    function GetServerUrl(): string
      reads this
    {
      ServerOrFallback(serverUrl)
    }

    function GetAccessToken(): string
      reads this
    {
      accessToken
    }
  }
}
