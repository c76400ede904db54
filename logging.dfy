/**
 * `Logger.registerCallback`: a Python logging callback is checked for its
 * five parameters, wrapped, handed to the engine, and the wrapper is kept
 * alive in a class-level list that never holds more than the latest one.
 * The engine's answer (its error code and the proxy it made) is a parameter;
 * what the wrapper does when the engine calls it is not part of this model.
 */
module Logging {
  import opened Wrappers

  /** A Python callable, identified by an id, with the number of parameters its signature has. */
  datatype LogCallback = LogCallback(id: nat, parameterCount: nat)

  /** The `callbackWrapper` closure made around a callback. */
  datatype Wrapper = CallbackWrapper(callback: LogCallback)

  datatype LogError = TypeError(message: string) | ValueError(message: string) | RuntimeError(message: string)

  /** What the engine is asked to register: a wrapper, or None to remove the current callback. */
  datatype RegisterCall = RegisterCall(callbackRef: Option<Wrapper>, thresholdSeverity: int)

  /** The engine's code mapped to the exception `registerCallback` raises, if any: -1 and -2 only. */
  function RegisterError(errCode: int): (r: Option<LogError>)
    ensures r.Some? <==> errCode == -1 || errCode == -2
    ensures errCode == -1 ==> r == Some(ValueError("parameter must be a function"))
    ensures errCode == -2 ==> r == Some(RuntimeError("unable to register callback"))
  {
    if errCode == -1 then Some(ValueError("parameter must be a function"))
    else if errCode == -2 then Some(RuntimeError("unable to register callback"))
    else None
  }

  /** The retention list after a registration: the new entry appended, then the oldest dropped if two are held. */
  function Retained(held: seq<(Wrapper, nat)>, entry: Option<(Wrapper, nat)>): seq<(Wrapper, nat)> {
    var appended := if entry.Some? then held + [entry.value] else held;
    if |appended| > 1 then appended[1..] else appended
  }

  /** The list a single held entry at most stands for. */
  function AtMostOne<T>(x: Option<T>): (r: seq<T>)
    ensures |r| <= 1
    ensures x.Some? ==> r == [x.value]
    ensures x.None? ==> r == []
  {
    if x.Some? then [x.value] else []
  }

  /**
   * When at most one entry is held, a registration leaves exactly the new
   * entry, or, when None was registered, the entry held before.
   */
  lemma RetainedLatest(latest: Option<(Wrapper, nat)>, entry: Option<(Wrapper, nat)>)
    ensures Retained(AtMostOne(latest), entry) == AtMostOne(if entry.Some? then entry else latest)
  {
    if entry.Some? && latest.Some? {
      assert (AtMostOne(latest) + [entry.value])[1..] == [entry.value];
    }
  }

  class Logger {
    /** `Logger.loggerCallbacksLocal`: the wrappers kept alive, each with the engine's proxy for it. */
    var loggerCallbacksLocal: seq<(Wrapper, nat)>
    /** The registrations the engine has been asked for, in order. */
    var registered: seq<RegisterCall>
    /** How many `_deregister_last` exit handlers have been registered with `atexit`. */
    var exitHandlers: nat
    /** The most recent wrapper registered (not None), with its proxy. */
    ghost var latest: Option<(Wrapper, nat)>

    ghost predicate Valid()
      reads this
    {
      loggerCallbacksLocal == AtMostOne(latest)
    }

    constructor()
      ensures Valid() && loggerCallbacksLocal == [] && registered == [] && exitHandlers == 0
    {
      loggerCallbacksLocal := [];
      registered := [];
      exitHandlers := 0;
      latest := None;
    }

    /**
     * `registerCallback`: a callback with fewer than five parameters raises
     * TypeError before anything reaches the engine; otherwise its wrapper (or
     * None) is registered; -1 and -2 from the engine raise, leaving the list
     * as it was; on any other code the wrapper is kept, replacing the one held
     * before, and one more exit handler is registered.
     */
    method RegisterCallback(callback: Option<LogCallback>, thresholdSeverity: int, errCode: int, proxy: nat)
      returns (r: Result<(), LogError>)
      requires Valid()
      modifies this
      ensures Valid()
      ensures callback.Some? && callback.value.parameterCount < 5 ==>
                r == Err(TypeError("Wrong type of callback for logging")) &&
                registered == old(registered) && loggerCallbacksLocal == old(loggerCallbacksLocal) &&
                exitHandlers == old(exitHandlers)
      ensures !(callback.Some? && callback.value.parameterCount < 5) ==>
                registered == old(registered) + [RegisterCall(WrapperFor(callback), thresholdSeverity)]
      ensures !(callback.Some? && callback.value.parameterCount < 5) && RegisterError(errCode).Some? ==>
                r == Err(RegisterError(errCode).value) &&
                loggerCallbacksLocal == old(loggerCallbacksLocal) && exitHandlers == old(exitHandlers)
      ensures !(callback.Some? && callback.value.parameterCount < 5) && RegisterError(errCode).None? ==>
                r == Ok(()) && exitHandlers == old(exitHandlers) + 1 &&
                loggerCallbacksLocal == (if callback.Some? then [(CallbackWrapper(callback.value), proxy)]
                                         else old(loggerCallbacksLocal))
    {
      var callbackRef: Option<Wrapper> := None;
      if callback.Some? {
        if callback.value.parameterCount < 5 {
          return Err(TypeError("Wrong type of callback for logging"));
        }
        callbackRef := Some(CallbackWrapper(callback.value));
      }
      registered := registered + [RegisterCall(callbackRef, thresholdSeverity)];
      if errCode == -1 {
        return Err(ValueError("parameter must be a function"));
      }
      if errCode == -2 {
        return Err(RuntimeError("unable to register callback"));
      }
      var entry := if callbackRef.Some? then Some((callbackRef.value, proxy)) else None;
      RetainedLatest(latest, entry);
      if callbackRef.Some? {
        loggerCallbacksLocal := loggerCallbacksLocal + [(callbackRef.value, proxy)];
        latest := entry;
      }
      if |loggerCallbacksLocal| > 1 {
        loggerCallbacksLocal := loggerCallbacksLocal[1..];
      }
      exitHandlers := exitHandlers + 1;
      r := Ok(());
    }
  }

  /** The `callbackRef` handed to the engine: a wrapper around the callback, or None. */
  function WrapperFor(callback: Option<LogCallback>): (w: Option<Wrapper>)
    ensures w.Some? <==> callback.Some?
    ensures w.Some? ==> w.value.callback == callback.value
  {
    if callback.Some? then Some(CallbackWrapper(callback.value)) else None
  }

  /**
   * Registering a callback, then None, keeps the callback's wrapper alive
   * (None appends nothing and releases nothing), and a second callback then
   * replaces it.
   */
  method RegisterThenRemove(first: LogCallback, second: LogCallback) returns (afterNone: seq<(Wrapper, nat)>,
                                                                            afterSecond: seq<(Wrapper, nat)>)
    requires first.parameterCount >= 5 && second.parameterCount >= 5
    ensures afterNone == [(CallbackWrapper(first), 1)]
    ensures afterSecond == [(CallbackWrapper(second), 3)]
  {
    var logger := new Logger();
    var r1 := logger.RegisterCallback(Some(first), 3, 0, 1);
    var r2 := logger.RegisterCallback(None, 3, 0, 2);
    afterNone := logger.loggerCallbacksLocal;
    var r3 := logger.RegisterCallback(Some(second), 3, 0, 3);
    afterSecond := logger.loggerCallbacksLocal;
  }
}
