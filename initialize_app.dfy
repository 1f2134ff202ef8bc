/** Start-up (src/scripts/initialize-app.ts): build the client from the
    platform, find the configured server among the account's devices, race
    its connections and return the authenticated account, server and
    library, or nothing. The network calls are inputs: the device list
    `account.servers()` resolves to (absent when it fails) and the outcome
    of racing the server's connections. */
module InitializeApp {
  import opened Wrappers

  datatype AppInfo = AppInfo(appName: string, appVersion: string, hostname: string, platform: string,
                             version: string)
  datatype AppConfig = AppConfig(clientId: Option<string>, queueId: Option<int>, sectionId: Option<int>,
                                 serverName: Option<string>, token: Option<string>)

  datatype Client = Client(identifier: Option<string>, product: string, version: string, device: string,
                           deviceName: string, platform: string, platformVersion: string)
  datatype Account = Account(client: Client, token: Option<string>)
  datatype Connection = Connection(uri: string)
  datatype Device = Device(name: string, accessToken: string, connections: seq<Connection>)
  datatype Library = Library(uri: string, account: Account)
  datatype AuthParams = AuthParams(account: Account, server: Device, library: Library)

  /** The first of the racing requests to settle: fulfilled, carrying the
      connection it was sent with, or rejected. */
  datatype Race = FirstFulfilled(connection: Connection) | FirstRejected

  /** The promise initializeApp returns: resolved (possibly to undefined) or,
      for a server with no connections, `Promise.race([])`, which never settles. */
  datatype Outcome = Resolved(auth: Option<AuthParams>) | NeverSettles

  /** normalizedPlatform: Node's platform names to Plex's; anything else throws. */
  function NormalizedPlatform(platform: string): (r: Result<string>)
    ensures r.Ok? <==> platform in {"darwin", "linux", "win32"}
    ensures platform == "darwin" ==> r == Ok("macOS")
    ensures platform == "linux" ==> r == Ok("Linux")
    ensures platform == "win32" ==> r == Ok("Windows")
  {
    if platform == "darwin" then Ok("macOS")
    else if platform == "linux" then Ok("Linux")
    else if platform == "win32" then Ok("Windows")
    else Err("no matching platform")
  }

  /** `devices.find(device => device.name === config.serverName)`. */
  function FindServer(devices: seq<Device>, serverName: Option<string>): (r: Option<Device>)
    ensures r.Some? <==> exists k :: 0 <= k < |devices| && Some(devices[k].name) == serverName
    ensures r.Some? ==> exists k :: 0 <= k < |devices| && devices[k] == r.value
                          && Some(r.value.name) == serverName
                          && forall j :: 0 <= j < k ==> Some(devices[j].name) != serverName
  {
    if devices == [] then None
    else if Some(devices[0].name) == serverName then Some(devices[0])
    else
      var r := FindServer(devices[1..], serverName);
      if r.Some? then
        ghost var k :| 0 <= k < |devices[1..]| && devices[1..][k] == r.value
                       && Some(r.value.name) == serverName
                       && forall j :: 0 <= j < k ==> Some(devices[1..][j].name) != serverName;
        assert devices[k + 1] == r.value;
        r
      else r
  }

  /** The client the app identifies itself with. */
  function MakeClient(config: AppConfig, sys: AppInfo, platformName: string): Client {
    Client(config.clientId, sys.appName, sys.appVersion, platformName, sys.hostname, platformName, sys.version)
  }

  /** initializeApp: any failure inside the try block yields undefined. */
  function Initialize(config: AppConfig, sys: AppInfo, servers: Option<seq<Device>>, race: Race): (o: Outcome)
    ensures NormalizedPlatform(sys.platform).Err? ==> o == Resolved(None)
    ensures servers.None? ==> o == Resolved(None)
  {
    match NormalizedPlatform(sys.platform)
    case Err(_) => Resolved(None)
    case Ok(platformName) =>
      var client := MakeClient(config, sys, platformName);
      var account := Account(client, config.token);
      match servers
      case None => Resolved(None)
      case Some(devices) =>
        match FindServer(devices, config.serverName)
        case None => Resolved(None)
        case Some(server) =>
          if server.connections == [] then NeverSettles
          else
            match race
            case FirstRejected => Resolved(None)
            case FirstFulfilled(connection) =>
              var library := Library(connection.uri, Account(client, Some(server.accessToken)));
              Resolved(Some(AuthParams(account, server, library)))
  }

  /** Initialisation succeeds exactly when the platform is known, the
      device list arrives, a device has the configured name, it has a
      connection and the first connection to answer succeeds; the result
      then carries the account (with the configured token), the first
      device of that name, and a library on the answering connection
      authorised by that server's access token. */
  lemma InitializeSucceeds(config: AppConfig, sys: AppInfo, servers: Option<seq<Device>>, race: Race)
    ensures Initialize(config, sys, servers, race).Resolved? && Initialize(config, sys, servers, race).auth.Some?
            <==> NormalizedPlatform(sys.platform).Ok? && servers.Some?
                 && FindServer(servers.value, config.serverName).Some?
                 && FindServer(servers.value, config.serverName).value.connections != []
                 && race.FirstFulfilled?
    ensures Initialize(config, sys, servers, race).Resolved? && Initialize(config, sys, servers, race).auth.Some? ==>
              var a := Initialize(config, sys, servers, race).auth.value;
              var server := FindServer(servers.value, config.serverName).value;
              a.server == server
              && a.account.token == config.token
              && a.account.client.platform == NormalizedPlatform(sys.platform).value
              && a.library == Library(race.connection.uri, Account(a.account.client, Some(server.accessToken)))
  {
  }

  /** No device of the configured name (including no configured name) gives undefined. */
  lemma NoMatchingServer(config: AppConfig, sys: AppInfo, devices: seq<Device>, race: Race)
    requires forall k :: 0 <= k < |devices| ==> Some(devices[k].name) != config.serverName
    ensures Initialize(config, sys, Some(devices), race) == Resolved(None)
  {
  }

  /** A matching server without connections leaves the promise pending forever. */
  lemma NoConnectionsNeverSettles(config: AppConfig, sys: AppInfo, devices: seq<Device>, race: Race)
    requires NormalizedPlatform(sys.platform).Ok?
    requires FindServer(devices, config.serverName).Some?
    requires FindServer(devices, config.serverName).value.connections == []
    ensures Initialize(config, sys, Some(devices), race) == NeverSettles
  {
  }
}
