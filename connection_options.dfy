/**
 * The command-line handling shared by the demo applications: the actions
 * that parse `-H host:port[/socks5Host:socks5Port]`, `-a <auth option>`,
 * `-a app=<name>` and `-u userId:IP` into the parsed-arguments namespace,
 * the table of per-user authorization options of the client/server setup,
 * and the TLS / leased-line guard when the session options are created.
 *
 * `parser.error` ends the program with a usage message; here it is the
 * error `ParserError(message)`, and a failing `int()` is `ValueError`.
 * The engine constructors the actions call (`AuthUser.createWith*`,
 * `AuthOptions.createWith*`, `TlsOptions.createFrom*`) are recorded as the
 * request they are made with.
 */
module ConnectionAndAuthOptions {
  import opened Wrappers
  import opened Text
  import opened PyValues

  datatype OptionError = ParserError(message: string) | ValueError(message: string)

  // ----- host:port -----

  datatype HostPort = HostPort(host: string, port: string)
  datatype ServerAddress = ServerAddress(endpoint: HostPort, socks5: Option<HostPort>)

  const MAX_PORT_VALUE: int := 65535

  /** The port text reads as an int in 1 through 65535. */
  predicate PortInRange(port: string) {
    var p := ParseInt(port);
    p.Some? && 0 < p.value <= MAX_PORT_VALUE
  }

  /** `":".join(hostPort)`. */
  function HostPortToString(hp: HostPort): string {
    hp.host + ":" + hp.port
  }

  /** `serverAddressToString`: the endpoint, then `/` and the SOCKS5 proxy when there is one. */
  function ServerAddressToString(a: ServerAddress): string {
    if a.socks5.Some? then HostPortToString(a.endpoint) + "/" + HostPortToString(a.socks5.value)
    else HostPortToString(a.endpoint)
  }

  function InvalidHostOption(value: string): OptionError {
    ParserError("Invalid host option '" + value + "'")
  }

  function InvalidPort(value: string): OptionError {
    ParserError("Invalid port '" + value + "', value must be 1 through 65535")
  }

  /**
   * `HostAction._parseHostPort`: the text is cut at its first ":" and the
   * port must read as an int in 1 through 65535; the port is kept as the
   * text it was given as.
   */
  function ParseHostPort(value: string): (r: Result<HostPort, OptionError>)
    ensures r.Ok? ==> value == HostPortToString(r.value) && ':' !in r.value.host
  {
    var vals := SplitOnce(value, ':');
    if |vals| != 2 then Err(InvalidHostOption(value))
    else
      match ParseInt(vals[1])
      case None => Err(ValueError("invalid literal for int() with base 10: '" + vals[1] + "'"))
      case Some(port) =>
        if port <= 0 || port > MAX_PORT_VALUE then Err(InvalidPort(value))
        else Ok(HostPort(vals[0], vals[1]))
  }

  /**
   * A host:port is accepted exactly when the text has a ":" and what follows
   * the first one reads as a port in range; without a ":" it is an invalid
   * host option.
   */
  lemma ParseHostPortAccepts(value: string)
    ensures ParseHostPort(value).Ok? <==> ':' in value && PortInRange(SplitOnce(value, ':')[1])
    ensures ParseHostPort(value).Ok? ==> PortInRange(ParseHostPort(value).value.port)
    ensures ':' !in value ==> ParseHostPort(value) == Err(InvalidHostOption(value))
    ensures ':' in value && PortInRange(SplitOnce(value, ':')[1]) ==>
              ParseHostPort(value) == Ok(HostPort(SplitOnce(value, ':')[0], SplitOnce(value, ':')[1]))
  {
  }

  /**
   * The address `HostAction` appends: the text is cut at its first "/"
   * into the endpoint and an optional SOCKS5 proxy, each parsed as
   * host:port.  (The action's check for zero or more than two pieces can
   * never fire, since a split with `maxsplit=1` gives one or two.)
   */
  function ParseServerAddress(values: string): (r: Result<ServerAddress, OptionError>)
    ensures r.Ok? ==> values == ServerAddressToString(r.value)
  {
    var parts := SplitOnce(values, '/');
    match ParseHostPort(parts[0])
    case Err(e) => Err(e)
    case Ok(endpoint) =>
      if |parts| == 2 then
        match ParseHostPort(parts[1])
        case Err(e) => Err(e)
        case Ok(socks5) => Ok(ServerAddress(endpoint, Some(socks5)))
      else Ok(ServerAddress(endpoint, None))
  }

  /** A host and port whose text the parser reads back. */
  predicate WellFormedHostPort(hp: HostPort) {
    ':' !in hp.host && PortInRange(hp.port)
  }

  predicate WellFormedAddress(a: ServerAddress) {
    WellFormedHostPort(a.endpoint) && '/' !in a.endpoint.host && '/' !in a.endpoint.port &&
    (a.socks5.Some? ==> WellFormedHostPort(a.socks5.value))
  }

  lemma HostPortRoundTrip(hp: HostPort)
    requires WellFormedHostPort(hp)
    ensures ParseHostPort(HostPortToString(hp)) == Ok(hp)
  {
    SplitOnceAt(hp.host, ':', hp.port);
    ParseHostPortAccepts(HostPortToString(hp));
  }

  /** Printing a well-formed address and parsing the text gives the address back. */
  lemma ServerAddressRoundTrip(a: ServerAddress)
    requires WellFormedAddress(a)
    ensures ParseServerAddress(ServerAddressToString(a)) == Ok(a)
  {
    var ep := HostPortToString(a.endpoint);
    HostPortRoundTrip(a.endpoint);
    assert '/' !in ep;
    if a.socks5.Some? {
      HostPortRoundTrip(a.socks5.value);
      SplitOnceAt(ep, '/', HostPortToString(a.socks5.value));
    }
  }

  // ----- userId:IP -----

  /** `UserIdIpAction`: the text must split on ":" into exactly two pieces. */
  function ParseUserIdIp(values: string): (r: Result<(string, string), OptionError>)
    ensures r.Ok? <==> |Split(values, ':')| == 2
    ensures r.Err? ==> r.error == ParserError("Invalid auth option '" + values + "'")
  {
    var vals := Split(values, ':');
    if |vals| != 2 then Err(ParserError("Invalid auth option '" + values + "'"))
    else Ok((vals[0], vals[1]))
  }

  /** A user id and an IP read from `-u` are the two sides of the text's only ":". */
  lemma UserIdIpParts(values: string)
    requires ParseUserIdIp(values).Ok?
    ensures var (userId, ip) := ParseUserIdIp(values).value;
            values == userId + ":" + ip && ':' !in userId && ':' !in ip
  {
    var vals := Split(values, ':');
    SplitJoin(values, ':');
    assert Join(vals, [':']) == vals[0] + [':'] + Join(vals[1..], [':']);
  }

  /** A user id and an IP without ":" are read back from their `userId:IP` text. */
  lemma UserIdIpRoundTrip(userId: string, ip: string)
    requires ':' !in userId && ':' !in ip
    ensures ParseUserIdIp(userId + ":" + ip) == Ok((userId, ip))
  {
    var parts := [userId, ip];
    assert Join(parts, [':']) == userId + [':'] + Join(parts[1..], [':']);
    JoinSplit(parts, ':');
  }

  // ----- authorization options -----

  /** The user part an `AuthUser.createWith*` call is made with. */
  datatype AuthUser = LogonName | ActiveDirectoryProperty(property: string) | ManualOptions(userId: string, ipAddress: string)

  /** The `AuthOptions.createWith*` call the option leads to. */
  datatype AuthRequest =
    | WithUser(user: AuthUser)
    | WithApp(appName: string)
    | WithUserAndApp(user: AuthUser, appName: string)
    | WithToken(token: string)

  function InvalidAuthOption(values: string): OptionError {
    ParserError("Invalid auth option '" + values + "'")
  }

  /** The kinds of `-a` option. */
  datatype AuthKind = UserKind | NoneKind | AppKind | UserAppKind | DirKind | ManualKind | UnknownKind

  function KindOf(authType: string): AuthKind {
    if authType == "user" then UserKind
    else if authType == "none" then NoneKind
    else if authType == "app" then AppKind
    else if authType == "userapp" then UserAppKind
    else if authType == "dir" then DirKind
    else if authType == "manual" then ManualKind
    else UnknownKind
  }

  /**
   * `AuthOptionsAction`: the kind is the text before the first "="; "user"
   * and "none" take no value (anything after them is ignored), the other
   * kinds need "=value", "manual" needs exactly three comma-separated
   * parts `app,ip,userId`, and an unknown kind is an error.
   */
  function AuthOptionFor(values: string): (r: Result<Option<AuthRequest>, OptionError>)
    ensures r.Err? ==> r.error == InvalidAuthOption(values)
  {
    var vals := SplitOnce(values, '=');
    AuthRequestFor(values, KindOf(vals[0]), vals)
  }

  /** The request for an option of the given kind, `vals` being the option cut at its first "=". */
  function AuthRequestFor(values: string, kind: AuthKind, vals: seq<string>): (r: Result<Option<AuthRequest>, OptionError>)
    requires 1 <= |vals| <= 2
    ensures r.Err? ==> r.error == InvalidAuthOption(values)
  {
    if kind == UserKind then Ok(Some(WithUser(LogonName)))
    else if kind == NoneKind then Ok(None)
    else if kind == UnknownKind || |vals| != 2 then Err(InvalidAuthOption(values))
    else if kind == AppKind then Ok(Some(WithApp(vals[1])))
    else if kind == UserAppKind then Ok(Some(WithUserAndApp(LogonName, vals[1])))
    else if kind == DirKind then Ok(Some(WithUser(ActiveDirectoryProperty(vals[1]))))
    else
      var parts := Split(vals[1], ',');
      if |parts| != 3 then Err(InvalidAuthOption(values))
      else Ok(Some(WithUserAndApp(ManualOptions(parts[2], parts[1]), parts[0])))
  }

  lemma AuthOptionDispatch(values: string)
    ensures AuthOptionFor(values) == AuthRequestFor(values, KindOf(SplitOnce(values, '=')[0]), SplitOnce(values, '='))
  {
  }

  lemma ManualRequest(values: string, vals: seq<string>)
    requires |vals| == 2 && |Split(vals[1], ',')| == 3
    ensures var parts := Split(vals[1], ',');
            AuthRequestFor(values, ManualKind, vals) == Ok(Some(WithUserAndApp(ManualOptions(parts[2], parts[1]), parts[0])))
  {
  }

  /**
   * "user" and "none" are accepted whatever follows them, "none" is the
   * only option giving no session identity, and any other kind without
   * "=value" is rejected.
   */
  lemma AuthOptionKinds(values: string)
    ensures SplitOnce(values, '=')[0] == "user" ==> AuthOptionFor(values) == Ok(Some(WithUser(LogonName)))
    ensures AuthOptionFor(values) == Ok(None) <==> SplitOnce(values, '=')[0] == "none"
    ensures '=' !in values ==> (AuthOptionFor(values).Ok? <==> values == "user" || values == "none")
  {
  }

  /** The `-a` text `kind=value`. */
  function KindText(kind: string, value: string): string { kind + "=" + value }

  /** A manual option read from `-a` is the text `manual=app,ip,userId`, each part free of commas. */
  lemma ManualOptionParts(values: string)
    requires AuthOptionFor(values).Ok? && AuthOptionFor(values).value.Some?
    requires AuthOptionFor(values).value.value.WithUserAndApp? && AuthOptionFor(values).value.value.user.ManualOptions?
    ensures var req := AuthOptionFor(values).value.value;
            values == KindText("manual", Join([req.appName, req.user.ipAddress, req.user.userId], ",")) &&
            ',' !in req.appName && ',' !in req.user.ipAddress && ',' !in req.user.userId
  {
    var vals := SplitOnce(values, '=');
    ManualShape(values);
    var parts := Split(vals[1], ',');
    SplitJoin(vals[1], ',');
    ManualText(values, vals, parts);
  }

  lemma ManualText(values: string, vals: seq<string>, parts: seq<string>)
    requires |vals| == 2 && values == vals[0] + ['='] + vals[1] && vals[0] == "manual"
    requires |parts| == 3 && Join(parts, [',']) == vals[1]
    ensures values == KindText("manual", Join([parts[0], parts[1], parts[2]], ","))
  {
    assert parts == [parts[0], parts[1], parts[2]];
  }

  /** An option read as a manual request is "manual=" followed by three comma-separated parts `app,ip,userId`. */
  lemma ManualShape(values: string)
    requires AuthOptionFor(values).Ok? && AuthOptionFor(values).value.Some?
    requires AuthOptionFor(values).value.value.WithUserAndApp? && AuthOptionFor(values).value.value.user.ManualOptions?
    ensures var vals := SplitOnce(values, '=');
            |vals| == 2 && vals[0] == "manual" && |Split(vals[1], ',')| == 3 &&
            var parts := Split(vals[1], ',');
            AuthOptionFor(values).value.value == WithUserAndApp(ManualOptions(parts[2], parts[1]), parts[0])
  {
    var vals := SplitOnce(values, '=');
    assert KindOf(vals[0]) == ManualKind;
  }

  /** The requests an `-a` option can express, with manual parts free of commas. */
  predicate Expressible(req: Option<AuthRequest>) {
    match req
    case None => true
    case Some(WithUser(u)) => u.LogonName? || u.ActiveDirectoryProperty?
    case Some(WithApp(_)) => true
    case Some(WithUserAndApp(u, app)) =>
      u.LogonName? || (u.ManualOptions? && ',' !in app && ',' !in u.ipAddress && ',' !in u.userId)
    case Some(WithToken(_)) => false
  }

  /** The `-a` text that asks for a request. */
  function AuthOptionText(req: Option<AuthRequest>): string
    requires Expressible(req)
  {
    match req
    case None => "none"
    case Some(WithUser(u)) => if u.LogonName? then "user" else KindText("dir", u.property)
    case Some(WithApp(app)) => KindText("app", app)
    case Some(WithUserAndApp(u, app)) =>
      if u.LogonName? then KindText("userapp", app)
      else KindText("manual", Join([app, u.ipAddress, u.userId], ","))
  }

  /** Every expressible request is read back from its `-a` text. */
  lemma AuthOptionRoundTrip(req: Option<AuthRequest>)
    requires Expressible(req)
    ensures AuthOptionFor(AuthOptionText(req)) == Ok(req)
  {
    match req
    case None =>
      assert SplitOnce("none", '=') == ["none"];
    case Some(WithUser(u)) =>
      if u.LogonName? {
        assert SplitOnce("user", '=') == ["user"];
      } else {
        DirRoundTrip(u.property);
      }
    case Some(WithApp(app)) =>
      AppRoundTrip(app);
    case Some(WithUserAndApp(u, app)) =>
      if u.LogonName? {
        UserAppRoundTrip(app);
      } else {
        ManualRoundTrip(app, u.ipAddress, u.userId);
      }
  }

  lemma DirRoundTrip(property: string)
    ensures AuthOptionFor(KindText("dir", property)) == Ok(Some(WithUser(ActiveDirectoryProperty(property))))
  {
    KindValue("dir", property, DirKind);
  }

  lemma AppRoundTrip(app: string)
    ensures AuthOptionFor(KindText("app", app)) == Ok(Some(WithApp(app)))
  {
    KindValue("app", app, AppKind);
  }

  lemma UserAppRoundTrip(app: string)
    ensures AuthOptionFor(KindText("userapp", app)) == Ok(Some(WithUserAndApp(LogonName, app)))
  {
    KindValue("userapp", app, UserAppKind);
  }

  /** The text `kind=value` splits into the kind and the value. */
  lemma KindValue(kind: string, value: string, k: AuthKind)
    requires '=' !in kind && KindOf(kind) == k
    ensures SplitOnce(KindText(kind, value), '=') == [kind, value]
    ensures KindOf(SplitOnce(KindText(kind, value), '=')[0]) == k
  {
    SplitOnceAt(kind, '=', value);
  }

  lemma ManualRoundTrip(app: string, ip: string, userId: string)
    requires ',' !in app && ',' !in ip && ',' !in userId
    ensures AuthOptionFor(KindText("manual", Join([app, ip, userId], ","))) ==
            Ok(Some(WithUserAndApp(ManualOptions(userId, ip), app)))
  {
    var parts := [app, ip, userId];
    var text := KindText("manual", Join(parts, [',']));
    KindValue("manual", Join(parts, [',']), ManualKind);
    JoinSplit(parts, ',');
    var vals := SplitOnce(text, '=');
    ManualRequest(text, vals);
    AuthOptionDispatch(text);
  }

  /** `AppAuthAction`: exactly `app=<name>`. */
  function AppNameFor(values: string): (r: Result<string, OptionError>)
    ensures r.Ok? <==> '=' in values && SplitOnce(values, '=')[0] == "app"
    ensures r.Ok? ==> values == "app=" + r.value
    ensures r.Err? ==> r.error == InvalidAuthOption(values)
  {
    var vals := SplitOnce(values, '=');
    if |vals| != 2 then Err(InvalidAuthOption(values))
    else if vals[0] != "app" then Err(InvalidAuthOption(values))
    else Ok(vals[1])
  }

  /** The parsed-arguments namespace the actions fill in. */
  class Args {
    var hosts: seq<ServerAddress>
    var userIdAndIps: seq<(string, string)>
    var authAppName: Option<string>
    var sessionIdentityAuthOptions: Option<AuthRequest>

    /** The defaults: no hosts, no users, no application name, no session identity options. */
    constructor()
      ensures hosts == [] && userIdAndIps == [] && authAppName == None && sessionIdentityAuthOptions == None
    {
      hosts := [];
      userIdAndIps := [];
      authAppName := None;
      sessionIdentityAuthOptions := None;
    }

    /** `HostAction`: one parsed address appended to the hosts; nothing else changes. */
    method HostAction(values: string) returns (r: Result<ServerAddress, OptionError>)
      modifies this
      ensures r == ParseServerAddress(values)
      ensures hosts == old(hosts) + (if r.Ok? then [r.value] else [])
      ensures userIdAndIps == old(userIdAndIps) && authAppName == old(authAppName)
      ensures sessionIdentityAuthOptions == old(sessionIdentityAuthOptions)
    {
      r := ParseServerAddress(values);
      if r.Ok? {
        hosts := hosts + [r.value];
      }
    }

    /** `UserIdIpAction`: one (userId, ip) pair appended; nothing else changes. */
    method UserIdIpAction(values: string) returns (r: Result<(string, string), OptionError>)
      modifies this
      ensures r == ParseUserIdIp(values)
      ensures userIdAndIps == old(userIdAndIps) + (if r.Ok? then [r.value] else [])
      ensures hosts == old(hosts) && authAppName == old(authAppName)
      ensures sessionIdentityAuthOptions == old(sessionIdentityAuthOptions)
    {
      r := ParseUserIdIp(values);
      if r.Ok? {
        userIdAndIps := userIdAndIps + [r.value];
      }
    }

    /** `AppAuthAction`: the application name, and application options made from it as the session identity. */
    method AppAuthAction(values: string) returns (r: Result<string, OptionError>)
      modifies this
      ensures r == AppNameFor(values)
      ensures r.Ok? ==> authAppName == Some(r.value) && sessionIdentityAuthOptions == Some(WithApp(r.value))
      ensures r.Err? ==> authAppName == old(authAppName) && sessionIdentityAuthOptions == old(sessionIdentityAuthOptions)
      ensures hosts == old(hosts) && userIdAndIps == old(userIdAndIps)
    {
      r := AppNameFor(values);
      if r.Ok? {
        authAppName := Some(r.value);
        sessionIdentityAuthOptions := Some(WithApp(r.value));
      }
    }

    /** `AuthOptionsAction`: the session identity options the option asks for, None included. */
    method AuthOptionsAction(values: string) returns (r: Result<Option<AuthRequest>, OptionError>)
      modifies this
      ensures r == AuthOptionFor(values)
      ensures sessionIdentityAuthOptions == (if r.Ok? then r.value else old(sessionIdentityAuthOptions))
      ensures hosts == old(hosts) && userIdAndIps == old(userIdAndIps) && authAppName == old(authAppName)
    {
      r := AuthOptionFor(values);
      if r.Ok? {
        sessionIdentityAuthOptions := r.value;
      }
    }
  }

  // ----- the client/server setup table -----

  function UserKey(userId: string, ip: string): string { userId + ":" + ip }

  /** `f"token #{n}"`. */
  function TokenKey(n: nat): string { "token #" + IntToString(n) }

  /** The entries for the `-u` users, in input order. */
  function UserPairs(userIdAndIps: seq<(string, string)>, appName: string): (ps: seq<(string, AuthRequest)>)
    ensures |ps| == |userIdAndIps|
    ensures forall i :: 0 <= i < |ps| ==>
              ps[i] == (UserKey(userIdAndIps[i].0, userIdAndIps[i].1),
                        WithUserAndApp(ManualOptions(userIdAndIps[i].0, userIdAndIps[i].1), appName))
  {
    seq(|userIdAndIps|, i requires 0 <= i < |userIdAndIps| =>
      (UserKey(userIdAndIps[i].0, userIdAndIps[i].1),
       WithUserAndApp(ManualOptions(userIdAndIps[i].0, userIdAndIps[i].1), appName)))
  }

  /** The entries for the `-T` tokens, numbered from 1. */
  function TokenPairs(tokens: seq<string>): (ps: seq<(string, AuthRequest)>)
    ensures |ps| == |tokens|
    ensures forall k :: 0 <= k < |ps| ==> ps[k] == (TokenKey(k + 1), WithToken(tokens[k]))
  {
    seq(|tokens|, k requires 0 <= k < |tokens| => (TokenKey(k + 1), WithToken(tokens[k])))
  }

  /**
   * `createClientServerSetupAuthOptions`: a dict filled first with one
   * entry per user, keyed "userId:ip", then one per token, keyed
   * "token #k"; the dict is the ordered list of its entries.
   */
  method CreateClientServerSetupAuthOptions(userIdAndIps: seq<(string, string)>, tokens: seq<string>, appName: string)
    returns (byIdentifier: seq<(string, AuthRequest)>)
    ensures byIdentifier == SetupTable(userIdAndIps, tokens, appName)
  {
    byIdentifier := [];
    for i := 0 to |userIdAndIps|
      invariant byIdentifier == SetupPrefix(userIdAndIps, tokens, appName, i)
    {
      var (userId, ip) := userIdAndIps[i];
      SetupPrefixUser(userIdAndIps, tokens, appName, i);
      byIdentifier := DictSet(byIdentifier, UserKey(userId, ip), WithUserAndApp(ManualOptions(userId, ip), appName));
    }
    for k := 0 to |tokens|
      invariant byIdentifier == SetupPrefix(userIdAndIps, tokens, appName, |userIdAndIps| + k)
    {
      SetupPrefixToken(userIdAndIps, tokens, appName, k);
      byIdentifier := DictSet(byIdentifier, TokenKey(k + 1), WithToken(tokens[k]));
    }
    SetupPrefixTable(userIdAndIps, tokens, appName);
  }

  /** Once every user and every token is stored, the table is complete. */
  lemma SetupPrefixTable(userIdAndIps: seq<(string, string)>, tokens: seq<string>, appName: string)
    ensures SetupPrefix(userIdAndIps, tokens, appName, |userIdAndIps| + |tokens|) == SetupTable(userIdAndIps, tokens, appName)
  {
    SetupPrefixPairs(userIdAndIps, tokens, appName, |userIdAndIps| + |tokens|);
    assert SetupPairs(userIdAndIps, tokens, appName)[..|userIdAndIps| + |tokens|] == SetupPairs(userIdAndIps, tokens, appName);
  }

  function SetupPairs(userIdAndIps: seq<(string, string)>, tokens: seq<string>, appName: string): seq<(string, AuthRequest)> {
    UserPairs(userIdAndIps, appName) + TokenPairs(tokens)
  }

  /** The i-th entry stored: the users' first, then the tokens'. */
  function SetupEntry(userIdAndIps: seq<(string, string)>, tokens: seq<string>, appName: string, i: nat): (string, AuthRequest)
    requires i < |userIdAndIps| + |tokens|
  {
    if i < |userIdAndIps| then
      (UserKey(userIdAndIps[i].0, userIdAndIps[i].1), WithUserAndApp(ManualOptions(userIdAndIps[i].0, userIdAndIps[i].1), appName))
    else (TokenKey(i - |userIdAndIps| + 1), WithToken(tokens[i - |userIdAndIps|]))
  }

  /** The table after its first n entries are stored. */
  function SetupPrefix(userIdAndIps: seq<(string, string)>, tokens: seq<string>, appName: string, n: nat): seq<(string, AuthRequest)>
    requires n <= |userIdAndIps| + |tokens|
  {
    if n == 0 then []
    else
      var (key, authOptions) := SetupEntry(userIdAndIps, tokens, appName, n - 1);
      DictSet(SetupPrefix(userIdAndIps, tokens, appName, n - 1), key, authOptions)
  }

  /** Storing user i after the first i entries gives the first i + 1. */
  lemma SetupPrefixUser(userIdAndIps: seq<(string, string)>, tokens: seq<string>, appName: string, i: nat)
    requires i < |userIdAndIps|
    ensures SetupPrefix(userIdAndIps, tokens, appName, i + 1) ==
            DictSet(SetupPrefix(userIdAndIps, tokens, appName, i), UserKey(userIdAndIps[i].0, userIdAndIps[i].1),
                    WithUserAndApp(ManualOptions(userIdAndIps[i].0, userIdAndIps[i].1), appName))
  {
  }

  /** Storing token k after the users and the first k tokens gives one entry more. */
  lemma SetupPrefixToken(userIdAndIps: seq<(string, string)>, tokens: seq<string>, appName: string, k: nat)
    requires k < |tokens|
    ensures SetupPrefix(userIdAndIps, tokens, appName, |userIdAndIps| + k + 1) ==
            DictSet(SetupPrefix(userIdAndIps, tokens, appName, |userIdAndIps| + k), TokenKey(k + 1), WithToken(tokens[k]))
  {
  }

  lemma {:induction false} SetupPrefixPairs(userIdAndIps: seq<(string, string)>, tokens: seq<string>, appName: string, n: nat)
    requires n <= |userIdAndIps| + |tokens|
    ensures SetupPrefix(userIdAndIps, tokens, appName, n) == DictFromPairs(SetupPairs(userIdAndIps, tokens, appName)[..n])
  {
    if n > 0 {
      var ps := SetupPairs(userIdAndIps, tokens, appName);
      SetupPrefixPairs(userIdAndIps, tokens, appName, n - 1);
      DictFromPairsStep(ps, n - 1);
      if n - 1 < |userIdAndIps| {
        assert ps[n - 1] == UserPairs(userIdAndIps, appName)[n - 1];
      } else {
        assert ps[n - 1] == TokenPairs(tokens)[n - 1 - |userIdAndIps|];
      }
    }
  }

  lemma TokenKeyHasNoColon(n: nat)
    ensures ':' !in TokenKey(n)
  {
    var digits := NatToString(n);
    assert TokenKey(n) == "token #" + digits;
    assert forall j :: 0 <= j < |digits| ==> IsDigit(digits[j]);
  }

  lemma TokenKeyInjective(a: nat, b: nat)
    requires TokenKey(a) == TokenKey(b)
    ensures a == b
  {
    assert IntToString(a) == TokenKey(a)[7..];
    assert IntToString(b) == TokenKey(b)[7..];
    ParseIntToString(a);
    ParseIntToString(b);
  }

  /** The table `createClientServerSetupAuthOptions` builds. */
  function SetupTable(userIdAndIps: seq<(string, string)>, tokens: seq<string>, appName: string): seq<(string, AuthRequest)> {
    DictFromPairs(SetupPairs(userIdAndIps, tokens, appName))
  }

  /** Every token keeps its own entry, "token #k" for the k-th token, and no key is listed twice. */
  lemma SetupTableTokens(userIdAndIps: seq<(string, string)>, tokens: seq<string>, appName: string, k: nat)
    requires k < |tokens|
    ensures KeysUnique(SetupTable(userIdAndIps, tokens, appName))
    ensures Lookup(SetupTable(userIdAndIps, tokens, appName), TokenKey(k + 1)) == Some(WithToken(tokens[k]))
  {
    var ps := SetupPairs(userIdAndIps, tokens, appName);
    var n := |userIdAndIps|;
    DictFromPairsKeysUnique(ps);
    SetupPairEntry(userIdAndIps, tokens, appName, n + k);
    SetupTokenLast(userIdAndIps, tokens, appName, k);
    forall j | n + k < j < |ps| ensures ps[j].0 != ps[n + k].0 {
      SetupPairEntry(userIdAndIps, tokens, appName, j);
    }
    DictFromPairsLastWins(ps, n + k);
  }

  /**
   * A user listed with the same id and IP more than once keeps the entry of
   * their last listing, when user ids hold no ":" (as `-u` guarantees).
   */
  lemma SetupTableUsers(userIdAndIps: seq<(string, string)>, tokens: seq<string>, appName: string, i: nat)
    requires forall u :: 0 <= u < |userIdAndIps| ==> ':' !in userIdAndIps[u].0
    requires i < |userIdAndIps| && forall j :: i < j < |userIdAndIps| ==> userIdAndIps[j] != userIdAndIps[i]
    ensures Lookup(SetupTable(userIdAndIps, tokens, appName), UserKey(userIdAndIps[i].0, userIdAndIps[i].1)) ==
            Some(WithUserAndApp(ManualOptions(userIdAndIps[i].0, userIdAndIps[i].1), appName))
  {
    var users := UserPairs(userIdAndIps, appName);
    var ps := users + TokenPairs(tokens);
    var n := |userIdAndIps|;
    assert ps[i] == users[i];
    forall j | i < j < |ps| ensures ps[j].0 != ps[i].0 {
      if j < n {
        assert ps[j] == users[j];
        if ps[j].0 == ps[i].0 {
          UserKeyInjective(userIdAndIps[i], userIdAndIps[j]);
        }
      } else {
        assert ps[j] == TokenPairs(tokens)[j - n];
        TokenKeyHasNoColon(j - n + 1);
        assert ps[i].0[|userIdAndIps[i].0|] == ':';
      }
    }
    DictFromPairsLastWins(ps, i);
  }

  /** The table has an entry for exactly the users' "userId:ip" keys and the tokens' "token #k" keys. */
  lemma SetupTableKeys(userIdAndIps: seq<(string, string)>, tokens: seq<string>, appName: string, key: string)
    ensures Lookup(SetupTable(userIdAndIps, tokens, appName), key).Some? <==>
            (exists i :: 0 <= i < |userIdAndIps| && key == UserKey(userIdAndIps[i].0, userIdAndIps[i].1)) ||
            (exists k :: 1 <= k <= |tokens| && key == TokenKey(k))
  {
    var ps := SetupPairs(userIdAndIps, tokens, appName);
    DictFromPairsKeys(ps, key);
    if exists j :: 0 <= j < |ps| && ps[j].0 == key {
      var j :| 0 <= j < |ps| && ps[j].0 == key;
      ListedKeyIsSetupKey(userIdAndIps, tokens, appName, j);
    }
    if IsSetupKey(userIdAndIps, tokens, key) {
      SetupKeyIsListed(userIdAndIps, tokens, appName, key);
    }
  }

  /** A user's "userId:ip" key or a token's "token #k" key. */
  predicate IsSetupKey(userIdAndIps: seq<(string, string)>, tokens: seq<string>, key: string) {
    (exists i :: 0 <= i < |userIdAndIps| && key == UserKey(userIdAndIps[i].0, userIdAndIps[i].1)) ||
    (exists k :: 1 <= k <= |tokens| && key == TokenKey(k))
  }

  lemma ListedKeyIsSetupKey(userIdAndIps: seq<(string, string)>, tokens: seq<string>, appName: string, j: nat)
    requires j < |userIdAndIps| + |tokens|
    ensures |SetupPairs(userIdAndIps, tokens, appName)| == |userIdAndIps| + |tokens|
    ensures IsSetupKey(userIdAndIps, tokens, SetupPairs(userIdAndIps, tokens, appName)[j].0)
  {
    SetupPairEntry(userIdAndIps, tokens, appName, j);
    if j >= |userIdAndIps| {
      var k := j - |userIdAndIps| + 1;
      assert 1 <= k <= |tokens|;
    }
  }

  lemma SetupKeyIsListed(userIdAndIps: seq<(string, string)>, tokens: seq<string>, appName: string, key: string)
    requires IsSetupKey(userIdAndIps, tokens, key)
    ensures exists j :: 0 <= j < |SetupPairs(userIdAndIps, tokens, appName)| && SetupPairs(userIdAndIps, tokens, appName)[j].0 == key
  {
    if exists i :: 0 <= i < |userIdAndIps| && key == UserKey(userIdAndIps[i].0, userIdAndIps[i].1) {
      var i :| 0 <= i < |userIdAndIps| && key == UserKey(userIdAndIps[i].0, userIdAndIps[i].1);
      SetupPairEntry(userIdAndIps, tokens, appName, i);
    } else {
      var k :| 1 <= k <= |tokens| && key == TokenKey(k);
      SetupPairEntry(userIdAndIps, tokens, appName, |userIdAndIps| + k - 1);
    }
  }

  /** The j-th pair listed is the j-th entry stored. */
  lemma SetupPairEntry(userIdAndIps: seq<(string, string)>, tokens: seq<string>, appName: string, j: nat)
    requires j < |userIdAndIps| + |tokens|
    ensures |SetupPairs(userIdAndIps, tokens, appName)| == |userIdAndIps| + |tokens|
    ensures SetupPairs(userIdAndIps, tokens, appName)[j] == SetupEntry(userIdAndIps, tokens, appName, j)
  {
    var users := UserPairs(userIdAndIps, appName);
    var ps := users + TokenPairs(tokens);
    if j < |userIdAndIps| {
      assert ps[j] == users[j];
    } else {
      assert ps[j] == TokenPairs(tokens)[j - |userIdAndIps|];
    }
  }

  /** No pair after the k-th token's has its key. */
  lemma SetupTokenLast(userIdAndIps: seq<(string, string)>, tokens: seq<string>, appName: string, k: nat)
    requires k < |tokens|
    ensures forall j :: |userIdAndIps| + k < j < |userIdAndIps| + |tokens| ==>
              SetupEntry(userIdAndIps, tokens, appName, j).0 != TokenKey(k + 1)
  {
    forall j | |userIdAndIps| + k < j < |userIdAndIps| + |tokens|
      ensures SetupEntry(userIdAndIps, tokens, appName, j).0 != TokenKey(k + 1)
    {
      if SetupEntry(userIdAndIps, tokens, appName, j).0 == TokenKey(k + 1) {
        TokenKeyInjective(j - |userIdAndIps| + 1, k + 1);
      }
    }
  }

  /**
   * Two users with the same key are the same user when user ids hold no
   * ":" (the key is cut at its first ":").
   */
  lemma UserKeyInjective(a: (string, string), b: (string, string))
    requires UserKey(a.0, a.1) == UserKey(b.0, b.1)
    requires ':' !in a.0 && ':' !in b.0
    ensures a == b
  {
    SplitOnceAt(a.0, ':', a.1);
    SplitOnceAt(b.0, ':', b.1);
  }

  // ----- TLS and the connection -----

  /** The `TlsOptions.createFrom*` call made: from the file names, or from the files' contents. */
  datatype TlsOptions =
    | FromFiles(credentials: string, password: string, trustMaterial: string)
    | FromBlobs(credentialBlob: seq<Byte>, password: string, trustBlob: seq<Byte>)

  /**
   * `_getTlsOptions`: None unless both the client credentials and the trust
   * material are named.  When asked to pass the files' contents, the
   * credentials file is read first and then the trust material; `readFile`
   * stands for `open(path, "rb").read()`, and its Err is the OSError that
   * `open` or `read` raises, which escapes.
   */
  function GetTlsOptions(credentials: Option<string>, password: string, trustMaterial: Option<string>,
                         readCertificateFiles: bool, readFile: string -> Result<seq<Byte>, string>)
    : (r: Result<Option<TlsOptions>, string>)
    ensures r.Ok? && r.value.Some? <==>
              credentials.Some? && trustMaterial.Some? &&
              (readCertificateFiles ==> readFile(credentials.value).Ok? && readFile(trustMaterial.value).Ok?)
    ensures r.Err? <==>
              credentials.Some? && trustMaterial.Some? && readCertificateFiles &&
              (readFile(credentials.value).Err? || readFile(trustMaterial.value).Err?)
    ensures r.Err? && readFile(credentials.value).Err? ==> r.error == readFile(credentials.value).error
    ensures r.Err? && readFile(credentials.value).Ok? ==> r.error == readFile(trustMaterial.value).error
    ensures r.Ok? && r.value.Some? ==> r.value.value.password == password && (r.value.value.FromBlobs? <==> readCertificateFiles)
    ensures r.Ok? && r.value.Some? && !readCertificateFiles ==>
              r.value.value == FromFiles(credentials.value, password, trustMaterial.value)
    ensures r.Ok? && r.value.Some? && readCertificateFiles ==>
              r.value.value.credentialBlob == readFile(credentials.value).value &&
              r.value.value.trustBlob == readFile(trustMaterial.value).value
  {
    if credentials.None? || trustMaterial.None? then Ok(None)
    else if readCertificateFiles then
      match readFile(credentials.value)
      case Err(e) => Err(e)
      case Ok(credentialBlob) =>
        match readFile(trustMaterial.value)
        case Err(e) => Err(e)
        case Ok(trustBlob) => Ok(Some(FromBlobs(credentialBlob, password, trustBlob)))
    else Ok(Some(FromFiles(credentials.value, password, trustMaterial.value)))
  }

  /** How the session connects: over a leased line with TLS, or to the listed servers. */
  datatype Connection =
    | ZfpLeasedLine(port: int, tls: TlsOptions)
    | Servers(servers: seq<ServerAddress>, serverTls: Option<TlsOptions>)

  /**
   * The connection `createSessionOptions` sets up: a leased-line port
   * (`-z`, used when it is given and not 0) needs TLS and then the hosts
   * are ignored; otherwise the servers in the order given, with TLS when
   * there is some.
   */
  function ConnectionFor(remote: Option<int>, tls: Option<TlsOptions>, hosts: seq<ServerAddress>)
    : (r: Result<Connection, string>)
    ensures r.Err? <==> remote.Some? && remote.value != 0 && tls.None?
    ensures r.Err? ==> r.error == "ZFP connections require TLS parameters"
    ensures r.Ok? && r.value.ZfpLeasedLine? ==> remote == Some(r.value.port) && tls == Some(r.value.tls)
    ensures r.Ok? && r.value.Servers? ==> r.value.servers == hosts && r.value.serverTls == tls
    ensures r.Ok? ==> (r.value.ZfpLeasedLine? <==> remote.Some? && remote.value != 0)
  {
    if remote.Some? && remote.value != 0 then
      if tls.None? then Err("ZFP connections require TLS parameters")
      else Ok(ZfpLeasedLine(remote.value, tls.value))
    else Ok(Servers(hosts, tls))
  }
}
