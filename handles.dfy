/**
 * Ownership of engine handles on the Python side.  `CHandle` is the base
 * of every wrapper: it keeps the handle and its destructor and releases the
 * handle at most once.  `AuthOptions` turns the base's destructor off and
 * keeps its own three handles (the options, and the application name or
 * token they were built from), releasing each at most once.  Each object
 * records the destructor calls it makes, in order, as the engine would see
 * them.  The foreign constructors are parameters: their return code and
 * the handle they produced.
 */
module Handles {
  import opened Wrappers
  import opened Utils
  import opened Exceptions

  /** `if handle:` on a `c_void_p` or None: true for a non-null address. */
  predicate Truthy(h: HandleValue) {
    h.VoidPtr? && h.address.Some? && h.address.value != 0
  }

  /** What `CHandle.__init__` accepts: a `c_void_p` or None (anything else fails its assertion). */
  predicate Acceptable(h: HandleValue) {
    h.NoHandle? || h.VoidPtr?
  }

  /** The destructor call `destroy` makes for a handle: one for a non-null one, none otherwise. */
  function ReleaseCall(h: HandleValue): (r: seq<nat>)
    ensures |r| <= 1
    ensures |r| == 1 <==> Truthy(h)
    ensures |r| == 1 ==> r[0] == h.address.value
  {
    if Truthy(h) then [h.address.value] else []
  }

  /** `CHandle.isValid`: there is a handle and its address is not None. */
  predicate HandleIsValid(h: HandleValue) {
    !h.NoHandle? && !(h.VoidPtr? && h.address.None?)
  }

  class CHandle {
    var handle: HandleValue
    var hasDtor: bool
    /** Addresses this object has passed to its destructor, in order. */
    var released: seq<nat>

    ghost predicate Valid()
      reads this
    {
      Acceptable(handle) && |released| <= 1 && (Truthy(handle) ==> released == [] && hasDtor)
    }

    constructor(handle: HandleValue)
      requires Acceptable(handle)
      ensures Valid() && this.handle == handle && hasDtor && released == []
    {
      this.handle := handle;
      hasDtor := true;
      released := [];
    }

    /** `destroy`: a non-null handle is passed to the destructor once, then handle and destructor are dropped. */
    method Destroy()
      requires Valid()
      modifies this
      ensures Valid()
      ensures released == old(released) + ReleaseCall(old(handle))
      ensures Truthy(old(handle)) ==> handle == NoHandle && !hasDtor
      ensures !Truthy(old(handle)) ==> handle == old(handle) && hasDtor == old(hasDtor)
      ensures !Truthy(handle)
    {
      if Truthy(handle) {
        released := released + [handle.address.value];
        hasDtor := false;
        handle := NoHandle;
      }
    }

    /** `__del__`: the same release as `destroy` (the NameError/AttributeError it swallows do not arise here). */
    method Del()
      requires Valid()
      modifies this
      ensures Valid()
      ensures released == old(released) + ReleaseCall(old(handle))
      ensures !Truthy(handle)
    {
      Destroy();
    }

    /** `isValid`. */
    predicate IsValid()
      reads this
    {
      HandleIsValid(handle)
    }
  }

  /** Which of its handles an `AuthOptions` passes to which destructor. */
  datatype HandleKind = OptionsHandle | AppHandle | TokenHandle

  /** The handle of the given kind among an `AuthOptions`'s three. */
  function HandleOf(k: HandleKind, options: HandleValue, app: HandleValue, token: HandleValue): HandleValue {
    match k
    case OptionsHandle => options
    case AppHandle => app
    case TokenHandle => token
  }

  /**
   * The destructor calls `AuthOptions.destroy` makes, in its order: options,
   * then app, then token; one for each non-null handle and no kind twice.
   */
  function AuthReleaseCalls(options: HandleValue, app: HandleValue, token: HandleValue): (r: seq<(HandleKind, nat)>)
    ensures |r| <= 3
    ensures forall i, j :: 0 <= i < j < |r| ==> r[i].0 != r[j].0
    ensures forall i :: 0 <= i < |r| ==>
              Truthy(HandleOf(r[i].0, options, app, token)) && r[i].1 == HandleOf(r[i].0, options, app, token).address.value
    ensures forall k :: Truthy(HandleOf(k, options, app, token)) ==> exists i :: 0 <= i < |r| && r[i].0 == k
  {
    var o := if Truthy(options) then [(OptionsHandle, options.address.value)] else [];
    var a := if Truthy(app) then [(AppHandle, app.address.value)] else [];
    var t := if Truthy(token) then [(TokenHandle, token.address.value)] else [];
    assert Truthy(options) ==> (o + a + t)[0].0 == OptionsHandle;
    assert Truthy(app) ==> (o + a + t)[|o|].0 == AppHandle;
    assert Truthy(token) ==> (o + a + t)[|o| + |a|].0 == TokenHandle;
    o + a + t
  }

  class AuthOptions {
    /** The base `CHandle`'s own handle: `self.__handle` in `CHandle` is a different attribute from the one here. */
    var baseHandle: HandleValue
    var optionsHandle: HandleValue
    var appHandle: HandleValue
    var tokenHandle: HandleValue
    var released: seq<(HandleKind, nat)>

    constructor(handle: HandleValue, app: HandleValue, token: HandleValue)
      requires Acceptable(handle)
      ensures baseHandle == handle && optionsHandle == handle && appHandle == app && tokenHandle == token
      ensures released == []
    {
      baseHandle := handle;
      optionsHandle := handle;
      appHandle := app;
      tokenHandle := token;
      released := [];
    }

    /** `destroy`: each non-null handle of the three is released once and set to None. */
    method Destroy()
      modifies this
      ensures released == old(released) + AuthReleaseCalls(old(optionsHandle), old(appHandle), old(tokenHandle))
      ensures optionsHandle == (if Truthy(old(optionsHandle)) then NoHandle else old(optionsHandle))
      ensures appHandle == (if Truthy(old(appHandle)) then NoHandle else old(appHandle))
      ensures tokenHandle == (if Truthy(old(tokenHandle)) then NoHandle else old(tokenHandle))
      ensures baseHandle == old(baseHandle)
      ensures AuthReleaseCalls(optionsHandle, appHandle, tokenHandle) == []
    {
      if Truthy(optionsHandle) {
        released := released + [(OptionsHandle, optionsHandle.address.value)];
        optionsHandle := NoHandle;
      }
      if Truthy(appHandle) {
        released := released + [(AppHandle, appHandle.address.value)];
        appHandle := NoHandle;
      }
      if Truthy(tokenHandle) {
        released := released + [(TokenHandle, tokenHandle.address.value)];
        tokenHandle := NoHandle;
      }
    }

    /** `_handle()` as inherited: the base's handle, which `destroy` never clears. */
    function HandleAsWritten(): HandleValue
      reads this
    {
      baseHandle
    }

    /** `_handle()` as the class evidently means it: the options handle that `destroy` releases. */
    function Handle(): HandleValue
      reads this
    {
      optionsHandle
    }
  }

  /**
   * After `destroy`, `get_handle` on the options still yields the options
   * handle that was just released, through the inherited `_handle()`; read
   * through the options handle, it yields None.
   */
  method DestroyedHandleStillHandedOut(address: nat) returns (asWritten: Option<HandleValue>, corrected: Option<HandleValue>)
    requires address != 0
    ensures asWritten == Some(VoidPtr(Some(address)))
    ensures corrected.None?
  {
    var opts := new AuthOptions(VoidPtr(Some(address)), NoHandle, NoHandle);
    opts.Destroy();
    assert opts.released == [(OptionsHandle, address)];
    asWritten := GetHandle(Some(opts.HandleAsWritten()));
    corrected := GetHandle(Some(opts.Handle()));
  }

  /**
   * With `_handle()` reading the options handle, `get_handle` on any
   * options whose handle was live yields None once they are destroyed.
   */
  method DestroyedHandleWithdrawn(options: HandleValue, app: HandleValue, token: HandleValue) returns (h: Option<HandleValue>)
    requires Truthy(options)
    ensures h.None?
  {
    var opts := new AuthOptions(options, app, token);
    opts.Destroy();
    h := GetHandle(Some(opts.Handle()));
  }

  /** A foreign constructor's result: its return code and the handle it wrote. */
  datatype Created = Created(retCode: int, handle: HandleValue)

  /** `createWithUser`: raises on a non-zero return code, otherwise wraps the options handle alone. */
  method CreateWithUser(options: Created, lastError: Option<string>) returns (r: Result<AuthOptions, BlpException>)
    requires Acceptable(options.handle)
    ensures r.Err? <==> options.retCode != 0
    ensures r.Err? ==> r.error == RaiseException(options.retCode, None, lastError)
    ensures r.Ok? ==> fresh(r.value) && r.value.optionsHandle == options.handle &&
                      r.value.appHandle == NoHandle && r.value.tokenHandle == NoHandle && r.value.released == []
  {
    var check := RaiseOnError(options.retCode, None, lastError);
    if check.Err? {
      return Err(check.error);
    }
    var opts := new AuthOptions(options.handle, NoHandle, NoHandle);
    r := Ok(opts);
  }

  /**
   * `createWithApp` and `createWithUserAndApp`: the application handle is
   * created first and each step raises on a non-zero code; the options keep
   * the application handle.
   */
  method CreateWithApp(app: Created, options: Created, lastError: Option<string>) returns (r: Result<AuthOptions, BlpException>)
    requires Acceptable(options.handle)
    ensures r.Err? <==> app.retCode != 0 || options.retCode != 0
    ensures app.retCode != 0 ==> r == Err(RaiseException(app.retCode, None, lastError))
    ensures app.retCode == 0 && options.retCode != 0 ==> r == Err(RaiseException(options.retCode, None, lastError))
    ensures r.Ok? ==> fresh(r.value) && r.value.optionsHandle == options.handle &&
                      r.value.appHandle == app.handle && r.value.tokenHandle == NoHandle && r.value.released == []
  {
    var appCheck := RaiseOnError(app.retCode, None, lastError);
    if appCheck.Err? {
      return Err(appCheck.error);
    }
    var check := RaiseOnError(options.retCode, None, lastError);
    if check.Err? {
      return Err(check.error);
    }
    var opts := new AuthOptions(options.handle, app.handle, NoHandle);
    r := Ok(opts);
  }

  /** `createWithToken`: as `createWithApp`, with the token handle kept instead. */
  method CreateWithToken(token: Created, options: Created, lastError: Option<string>) returns (r: Result<AuthOptions, BlpException>)
    requires Acceptable(options.handle)
    ensures r.Err? <==> token.retCode != 0 || options.retCode != 0
    ensures token.retCode != 0 ==> r == Err(RaiseException(token.retCode, None, lastError))
    ensures token.retCode == 0 && options.retCode != 0 ==> r == Err(RaiseException(options.retCode, None, lastError))
    ensures r.Ok? ==> fresh(r.value) && r.value.optionsHandle == options.handle &&
                      r.value.appHandle == NoHandle && r.value.tokenHandle == token.handle && r.value.released == []
  {
    var tokenCheck := RaiseOnError(token.retCode, None, lastError);
    if tokenCheck.Err? {
      return Err(tokenCheck.error);
    }
    var check := RaiseOnError(options.retCode, None, lastError);
    if check.Err? {
      return Err(check.error);
    }
    var opts := new AuthOptions(options.handle, NoHandle, token.handle);
    r := Ok(opts);
  }
}
