/**
 * The checks `SessionOptions` and `Socks5Config` make on the Python side
 * before they hand a value to the engine: port validation, the encoding of
 * booleans as integers and back, and the defaults `setSessionIdentityOptions`
 * substitutes.  The engine is an `Engine` object that records, in order, the
 * foreign calls made to it; what a call returns is a parameter.
 */
module SessionOptions {
  import opened Wrappers
  import opened Text
  import opened Exceptions
  import opened Utils
  import opened Handles

  const MIN_PORT: int := 1
  const MAX_PORT: int := 65535

  /** The text of the ValueError `_validatePort` raises (its misspelling included). */
  function PortMessage(port: int): string {
    PORT_PREFIX + IntToString(port) + PORT_SUFFIX
  }

  const PORT_PREFIX: string := "port out of range:"
  const PORT_SUFFIX: string := ". Must be beetween 1 and 65535"

  /** `_validatePort`: ValueError exactly when the port is below 1 or above 65535. */
  function ValidatePort(port: int): (r: Result<(), string>)
    ensures r.Ok? <==> MIN_PORT <= port <= MAX_PORT
    ensures r.Err? ==> r.error == PortMessage(port)
  {
    if port < 1 || port > 65535 then Err(PortMessage(port)) else Ok(())
  }

  /** The rejected port can be read back out of the message. */
  lemma PortMessageNamesPort(port: int)
    requires ValidatePort(port).Err?
    ensures var m := ValidatePort(port).error;
            |m| >= |PORT_PREFIX| + |PORT_SUFFIX| && m[..|PORT_PREFIX|] == PORT_PREFIX &&
            ParseInt(m[|PORT_PREFIX|..|m| - |PORT_SUFFIX|]) == Some(port)
  {
    var m := ValidatePort(port).error;
    var digits := IntToString(port);
    assert m[|PORT_PREFIX|..|m| - |PORT_SUFFIX|] == digits;
    ParseIntToString(port);
  }

  /** `setKeepAliveEnabled`'s encoding: 1 for True, 0 for False. */
  function KeepAliveValue(isEnabled: bool): (v: int)
    ensures v == 0 || v == 1
  {
    if isEnabled then 1 else 0
  }

  /** A boolean getter's decoding of the engine's integer: `!= 0`, which is also what `bool()` gives. */
  predicate EngineBool(v: int) {
    v != 0
  }

  /** Reading back a keep-alive setting gives the boolean that was set. */
  lemma KeepAliveRoundTrip(isEnabled: bool)
    ensures EngineBool(KeepAliveValue(isEnabled)) == isEnabled
  {
  }

  /** A correlation id, identified by its value. */
  datatype CorrelationId = CorrelationId(value: nat)

  /** The foreign calls this part of the binding makes. */
  datatype EngineCall =
    | Socks5ConfigCreate(hostname: string, port: int)
    | SetServerPort(serverPort: int)
    | SetServerAddressWithProxy(serverHost: string, serverAddressPort: int, socks5: Option<HandleValue>, index: int)
    | SetKeepAliveEnabled(keepAliveValue: int)
    | AuthOptionsCreateDefault
    | SetSessionIdentityOptions(authOptions: Option<HandleValue>, correlationId: CorrelationId)

  datatype SessionError = ValueError(message: string) | Raised(exception: BlpException)

  /** The engine as the binding sees it: the calls made to it so far. */
  class Engine {
    var calls: seq<EngineCall>

    constructor()
      ensures calls == []
    {
      calls := [];
    }

    /** `Socks5Config(hostname, port)`: the port is checked before the proxy is created. */
    method Socks5Config(hostname: string, port: int, created: HandleValue) returns (r: Result<HandleValue, SessionError>)
      modifies this
      ensures ValidatePort(port).Err? ==> r == Err(ValueError(PortMessage(port))) && calls == old(calls)
      ensures ValidatePort(port).Ok? ==> r == Ok(created) && calls == old(calls) + [Socks5ConfigCreate(hostname, port)]
    {
      var check := ValidatePort(port);
      if check.Err? {
        return Err(ValueError(check.error));
      }
      calls := calls + [Socks5ConfigCreate(hostname, port)];
      r := Ok(created);
    }

    /** `setServerPort`: the port is checked first; the engine's code then decides whether it raises. */
    method SetServerPortOf(serverPort: int, retCode: int, lastError: Option<string>) returns (r: Result<(), SessionError>)
      modifies this
      ensures ValidatePort(serverPort).Err? ==> r == Err(ValueError(PortMessage(serverPort))) && calls == old(calls)
      ensures ValidatePort(serverPort).Ok? ==> calls == old(calls) + [SetServerPort(serverPort)]
      ensures ValidatePort(serverPort).Ok? ==>
                r == (if retCode == 0 then Ok(()) else Err(Raised(RaiseException(retCode, None, lastError))))
    {
      var check := ValidatePort(serverPort);
      if check.Err? {
        return Err(ValueError(check.error));
      }
      calls := calls + [SetServerPort(serverPort)];
      var raised := RaiseOnError(retCode, None, lastError);
      r := if raised.Err? then Err(Raised(raised.error)) else Ok(());
    }

    /** `setServerAddress`: as `setServerPort`; the proxy is passed by its handle, or None. */
    method SetServerAddress(serverHost: string, serverPort: int, index: int, socks5Config: Option<HandleValue>,
                            retCode: int, lastError: Option<string>) returns (r: Result<(), SessionError>)
      modifies this
      ensures ValidatePort(serverPort).Err? ==> r == Err(ValueError(PortMessage(serverPort))) && calls == old(calls)
      ensures ValidatePort(serverPort).Ok? ==>
                calls == old(calls) + [SetServerAddressWithProxy(serverHost, serverPort, GetHandle(socks5Config), index)]
      ensures ValidatePort(serverPort).Ok? ==>
                r == (if retCode == 0 then Ok(()) else Err(Raised(RaiseException(retCode, None, lastError))))
    {
      var check := ValidatePort(serverPort);
      if check.Err? {
        return Err(ValueError(check.error));
      }
      calls := calls + [SetServerAddressWithProxy(serverHost, serverPort, GetHandle(socks5Config), index)];
      var raised := RaiseOnError(retCode, None, lastError);
      r := if raised.Err? then Err(Raised(raised.error)) else Ok(());
    }

    /** `setKeepAliveEnabled`: the boolean goes to the engine as 1 or 0. */
    method SetKeepAlive(isEnabled: bool, retCode: int, lastError: Option<string>) returns (r: Result<(), SessionError>)
      modifies this
      ensures calls == old(calls) + [SetKeepAliveEnabled(KeepAliveValue(isEnabled))]
      ensures r.Ok? <==> retCode == 0
      ensures r.Err? ==> r == Err(Raised(RaiseException(retCode, None, lastError)))
    {
      var keepAliveValue := if isEnabled then 1 else 0;
      calls := calls + [SetKeepAliveEnabled(keepAliveValue)];
      var raised := RaiseOnError(retCode, None, lastError);
      r := if raised.Err? then Err(Raised(raised.error)) else Ok(());
    }

    /**
     * `setSessionIdentityOptions`: a missing correlation id becomes a fresh
     * one; missing options become default options the engine creates first
     * (raising if it cannot); the engine's actual correlation id is returned.
     */
    method SetIdentityOptions(authOptions: Option<HandleValue>, correlationId: Option<CorrelationId>,
                              freshId: CorrelationId, defaultOptions: Created,
                              retCode: int, actualId: CorrelationId, lastError: Option<string>)
      returns (r: Result<CorrelationId, SessionError>)
      modifies this
      ensures authOptions.Some? ==>
                calls == old(calls) + [SetSessionIdentityOptions(GetHandle(authOptions), IdentityId(correlationId, freshId))]
      ensures authOptions.None? && defaultOptions.retCode != 0 ==>
                calls == old(calls) + [AuthOptionsCreateDefault] &&
                r == Err(Raised(RaiseException(defaultOptions.retCode, None, lastError)))
      ensures authOptions.None? && defaultOptions.retCode == 0 ==>
                calls == old(calls) + [AuthOptionsCreateDefault,
                                       SetSessionIdentityOptions(GetHandle(Some(defaultOptions.handle)), IdentityId(correlationId, freshId))]
      ensures authOptions.Some? || defaultOptions.retCode == 0 ==>
                r == (if retCode == 0 then Ok(actualId) else Err(Raised(RaiseException(retCode, None, lastError))))
    {
      var cid := if correlationId.None? then freshId else correlationId.value;
      var options := authOptions;
      if options.None? {
        calls := calls + [AuthOptionsCreateDefault];
        var created := RaiseOnError(defaultOptions.retCode, None, lastError);
        if created.Err? {
          return Err(Raised(created.error));
        }
        options := Some(defaultOptions.handle);
      }
      calls := calls + [SetSessionIdentityOptions(GetHandle(options), cid)];
      var raised := RaiseOnError(retCode, None, lastError);
      r := if raised.Err? then Err(Raised(raised.error)) else Ok(actualId);
    }
  }

  /** The correlation id handed to the engine: the caller's, or a fresh one when None was given. */
  function IdentityId(correlationId: Option<CorrelationId>, freshId: CorrelationId): (cid: CorrelationId)
    ensures correlationId.Some? ==> cid == correlationId.value
    ensures correlationId.None? ==> cid == freshId
  {
    if correlationId.None? then freshId else correlationId.value
  }

  /**
   * A rejected port reaches no foreign call: whichever of the three entry
   * points receives it, the engine sees nothing and the caller gets the
   * ValueError.
   */
  method RejectedPortReachesNoEngine(port: int, host: string) returns (proxy: Result<HandleValue, SessionError>,
                                                                       serverPort: Result<(), SessionError>,
                                                                       address: Result<(), SessionError>,
                                                                       engineCalls: seq<EngineCall>)
    requires port < MIN_PORT || port > MAX_PORT
    ensures proxy == Err(ValueError(PortMessage(port)))
    ensures serverPort == Err(ValueError(PortMessage(port)))
    ensures address == Err(ValueError(PortMessage(port)))
    ensures engineCalls == []
  {
    var engine := new Engine();
    proxy := engine.Socks5Config(host, port, NoHandle);
    serverPort := engine.SetServerPortOf(port, 0, None);
    address := engine.SetServerAddress(host, port, 0, None, 0, None);
    engineCalls := engine.calls;
  }
}
