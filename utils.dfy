/**
 * The binding's internal helpers: the counted iterator used for every
 * "iterate over the i-th sub-item" view, the metaclass that keeps
 * upper-case class attributes (enumeration constants) from being changed,
 * and the small predicates and conversions on handles, callbacks and strings.
 */
module Utils {
  import opened Wrappers
  import opened PyValues

  const MIN_32BIT_INT: int := -0x8000_0000
  const MAX_32BIT_INT: int := 0x7FFF_FFFF
  const MIN_64BIT_INT: int := -0x8000_0000_0000_0000
  const MAX_64BIT_INT: int := 0x7FFF_FFFF_FFFF_FFFF

  // ----- Iterator -----

  /**
   * `utils.Iterator`: the count is taken once, at construction; each call
   * of `__next__` yields the getter's item for the current index and then
   * advances, and at the count it raises StopIteration (here `Ok(None)`)
   * without advancing.  A getter that raises leaves the index where it was.
   */
  class Iterator<T, E> {
    const num: nat
    const getter: nat -> Result<T, E>
    var index: nat

    ghost predicate Valid()
      reads this
    {
      index <= num
    }

    constructor(num: nat, getter: nat -> Result<T, E>)
      ensures Valid() && this.num == num && this.getter == getter && index == 0
    {
      this.num := num;
      this.getter := getter;
      index := 0;
    }

    method Next() returns (r: Result<Option<T>, E>)
      requires Valid()
      modifies this
      ensures Valid()
      ensures r == NextItem(num, getter, old(index))
      ensures index == if r.Ok? && r.value.Some? then old(index) + 1 else old(index)
    {
      if index == num {
        return Ok(None);
      }
      var res := getter(index);
      if res.Err? {
        return Err(res.error);
      }
      index := index + 1;
      r := Ok(Some(res.value));
    }

    /**
     * Python's `list(it)`: calls `__next__` until StopIteration, and
     * returns what was yielded, or the first error the getter raised.
     */
    method ToList() returns (r: Result<seq<T>, E>)
      requires Valid()
      modifies this
      ensures Valid()
      ensures r == Remaining(num, getter, old(index))
      ensures r.Ok? ==> index == num
    {
      var acc: seq<T> := [];
      ghost var start := index;
      PrependNothing(Remaining(num, getter, index));
      while true
        invariant Valid() && start <= index
        invariant Remaining(num, getter, start) == Prepend(acc, Remaining(num, getter, index))
        decreases num - index
      {
        var step := Next();
        if step.Err? {
          return Err(step.error);
        }
        if step.value.None? {
          assert acc + [] == acc;
          return Ok(acc);
        }
        PrependStep(acc, step.value.value, Remaining(num, getter, index));
        acc := acc + [step.value.value];
      }
    }
  }

  /** The items already taken, in front of what the rest of an iteration gives. */
  function Prepend<T, E>(acc: seq<T>, rest: Result<seq<T>, E>): Result<seq<T>, E> {
    match rest
    case Ok(items) => Ok(acc + items)
    case Err(e) => Err(e)
  }

  lemma PrependNothing<T, E>(rest: Result<seq<T>, E>)
    ensures Prepend([], rest) == rest
  {
    if rest.Ok? {
      assert [] + rest.value == rest.value;
    }
  }

  lemma PrependStep<T, E>(acc: seq<T>, x: T, rest: Result<seq<T>, E>)
    ensures Prepend(acc, Prepend([x], rest)) == Prepend(acc + [x], rest)
  {
    if rest.Ok? {
      assert acc + ([x] + rest.value) == (acc + [x]) + rest.value;
    }
  }

  /** What one `__next__` at `index` gives: StopIteration at the count, otherwise the getter's item. */
  function NextItem<T, E>(num: nat, getter: nat -> Result<T, E>, index: nat): (r: Result<Option<T>, E>)
    requires index <= num
    ensures r.Ok? && r.value.None? <==> index == num
  {
    if index == num then Ok(None)
    else match getter(index)
      case Err(e) => Err(e)
      case Ok(x) => Ok(Some(x))
  }

  /** What the rest of an iteration yields from `index` on: the items in index order, or the first error. */
  function Remaining<T, E>(num: nat, getter: nat -> Result<T, E>, index: nat): Result<seq<T>, E>
    requires index <= num
    decreases num - index
  {
    if index == num then Ok([])
    else match getter(index)
      case Err(e) => Err(e)
      case Ok(x) =>
        match Remaining(num, getter, index + 1)
        case Err(e) => Err(e)
        case Ok(rest) => Ok([x] + rest)
  }

  /**
   * An iteration from `index` yields exactly `num - index` items, the i-th
   * being the getter's item at `index + i`, when no getter call fails; and
   * the first failing call's error otherwise.
   */
  lemma {:induction false} RemainingItems<T, E>(num: nat, getter: nat -> Result<T, E>, index: nat)
    requires index <= num
    ensures Remaining(num, getter, index).Ok? <==> forall i :: index <= i < num ==> getter(i).Ok?
    ensures Remaining(num, getter, index).Ok? ==>
              |Remaining(num, getter, index).value| == num - index &&
              forall i :: 0 <= i < num - index ==> Remaining(num, getter, index).value[i] == getter(index + i).value
    ensures Remaining(num, getter, index).Err? ==>
              exists k :: index <= k < num && getter(k).Err? && Remaining(num, getter, index).error == getter(k).error &&
                          forall i :: index <= i < k ==> getter(i).Ok?
    decreases num - index
  {
    if index < num {
      RemainingItems(num, getter, index + 1);
      var r := Remaining(num, getter, index);
      if getter(index).Ok? && Remaining(num, getter, index + 1).Ok? {
        var rest := Remaining(num, getter, index + 1).value;
        assert r.value == [getter(index).value] + rest;
        forall i | 0 <= i < num - index
          ensures r.value[i] == getter(index + i).value
        {
          if i > 0 {
            assert r.value[i] == rest[i - 1];
          }
        }
      }
    }
  }

  // ----- MetaClassForClassesWithEnums -----

  datatype AttrError = EnumError(message: string) | AttributeError(name: string)

  predicate IsCased(c: char) { 'a' <= c <= 'z' || 'A' <= c <= 'Z' }

  predicate IsLowerCase(c: char) { 'a' <= c <= 'z' }

  /** `str.isupper()`: at least one cased character, and no lower-case one. */
  predicate IsUpper(name: string) {
    (exists i :: 0 <= i < |name| && IsCased(name[i])) &&
    forall i :: 0 <= i < |name| ==> !IsLowerCase(name[i])
  }

  /** The class dictionary after `cls.name = value`, or the EnumError for an existing upper-case name. */
  function GuardedSet(attrs: map<string, PyValue>, name: string, value: PyValue): Result<map<string, PyValue>, AttrError> {
    if IsUpper(name) && name in attrs then Err(EnumError("Can't change value of enum " + name))
    else Ok(attrs[name := value])
  }

  /** The class dictionary after `del cls.name`; a missing name is Python's AttributeError. */
  function GuardedDelete(attrs: map<string, PyValue>, name: string): Result<map<string, PyValue>, AttrError> {
    if IsUpper(name) && name in attrs then Err(EnumError("Can't unbind enum " + name))
    else if name !in attrs then Err(AttributeError(name))
    else Ok(attrs - {name})
  }

  /**
   * The guard's promise: an upper-case attribute, once defined, keeps its
   * value through any assignment or deletion; every other assignment is
   * applied, and only the named attribute changes.
   */
  lemma EnumConstantsStable(attrs: map<string, PyValue>, name: string, value: PyValue, other: string)
    requires IsUpper(other) && other in attrs
    ensures GuardedSet(attrs, name, value).Ok? ==> GuardedSet(attrs, name, value).value[other] == attrs[other]
    ensures GuardedDelete(attrs, name).Ok? ==>
              other in GuardedDelete(attrs, name).value && GuardedDelete(attrs, name).value[other] == attrs[other]
    ensures GuardedSet(attrs, name, value).Err? <==> IsUpper(name) && name in attrs
    ensures GuardedSet(attrs, name, value).Ok? ==>
              forall n :: n != name ==> (n in attrs <==> n in GuardedSet(attrs, name, value).value)
  {
  }

  /** A class whose metaclass is `MetaClassForClassesWithEnums`, holding its own attribute dictionary. */
  class EnumClass {
    var attrs: map<string, PyValue>

    constructor(attrs: map<string, PyValue>)
      ensures this.attrs == attrs
    {
      this.attrs := attrs;
    }

    /** `__setattr__`: refuses to rebind an existing upper-case name, otherwise binds it. */
    method SetAttr(name: string, value: PyValue) returns (r: Result<(), AttrError>)
      modifies this
      ensures GuardedSet(old(attrs), name, value).Ok? ==> r.Ok? && attrs == GuardedSet(old(attrs), name, value).value
      ensures GuardedSet(old(attrs), name, value).Err? ==>
                r == Err(GuardedSet(old(attrs), name, value).error) && attrs == old(attrs)
    {
      if IsUpper(name) && name in attrs {
        return Err(EnumError("Can't change value of enum " + name));
      }
      attrs := attrs[name := value];
      r := Ok(());
    }

    /** `__delattr__`: refuses to unbind an existing upper-case name, otherwise unbinds it. */
    method DelAttr(name: string) returns (r: Result<(), AttrError>)
      modifies this
      ensures GuardedDelete(old(attrs), name).Ok? ==> r.Ok? && attrs == GuardedDelete(old(attrs), name).value
      ensures GuardedDelete(old(attrs), name).Err? ==>
                r == Err(GuardedDelete(old(attrs), name).error) && attrs == old(attrs)
    {
      if IsUpper(name) && name in attrs {
        return Err(EnumError("Can't unbind enum " + name));
      }
      if name !in attrs {
        return Err(AttributeError(name));
      }
      attrs := attrs - {name};
      r := Ok(());
    }
  }

  // ----- handles, callbacks, strings -----

  /** What an object's `_handle()` returns: None, a `c_void_p` (whose value may be None), or another handle object. */
  datatype HandleValue = NoHandle | VoidPtr(address: Option<nat>) | OtherHandle(id: nat)

  /** `get_handle`: None for no object, a None handle, or a null `c_void_p`; the handle itself otherwise. */
  function GetHandle(thing: Option<HandleValue>): (r: Option<HandleValue>)
    ensures r.None? <==> thing.None? || thing.value.NoHandle? || thing.value == VoidPtr(None)
    ensures r.Some? ==> r == thing
  {
    match thing
    case None => None
    case Some(NoHandle) => None
    case Some(VoidPtr(None)) => None
    case Some(h) => Some(h)
  }

  /** A handle `get_handle` returns is one it returns unchanged again. */
  lemma GetHandleIdempotent(thing: Option<HandleValue>)
    ensures GetHandle(GetHandle(thing)) == GetHandle(thing)
    ensures GetHandle(thing).Some? ==> !GetHandle(thing).value.NoHandle? && GetHandle(thing).value != VoidPtr(None)
  {
  }

  /** A callback argument: None, a non-callable object, or a callable. */
  datatype Callback<!T> = NoCallback | NotCallable | Callable(f: T -> T)

  /** `invoke_if_valid`: `cb(value)` when `cb` is callable, the value unchanged otherwise. */
  function InvokeIfValid<T>(cb: Callback<T>, value: T): (r: T)
    ensures cb.Callable? ==> r == cb.f(value)
    ensures !cb.Callable? ==> r == value
  {
    if cb.Callable? then cb.f(value) else value
  }

  /**
   * `isNonScalarSequence`: a `Sequence` that is not one of the string-like
   * scalars.  Of the value kinds modelled, lists and tuples.
   */
  predicate IsNonScalarSequence(v: PyValue) {
    IsSequence(v) && !(v.PyStr? || v.PyBytes? || v.PyByteArray? || v.PyMemoryView?)
  }

  /** `isinstance(v, collections.abc.Sequence)` for the value kinds modelled. */
  predicate IsSequence(v: PyValue) {
    v.PyList? || v.PyTuple? || v.PyStr? || v.PyBytes? || v.PyByteArray? || v.PyMemoryView?
  }

  /** A non-scalar sequence is exactly a list or a tuple, and never a Mapping. */
  lemma NonScalarSequenceKinds(v: PyValue)
    ensures IsNonScalarSequence(v) <==> v.PyList? || v.PyTuple?
    ensures IsNonScalarSequence(v) ==> !v.PyMapping?
  {
  }

  /** `isstr`: bytes or str. */
  predicate IsStr(v: PyValue) { v.PyBytes? || v.PyStr? }

  /**
   * `conv2str`: bytes are decoded (UTF-8, by the interpreter's codec, given
   * here as `decode`; None is a UnicodeDecodeError), a str is returned as it
   * is, and anything else falls off the end of the function, giving None.
   */
  function Conv2Str(v: PyValue, decode: seq<Byte> -> Option<string>): (r: Result<PyValue, string>)
    ensures r.Ok? ==> r.value.PyStr? || r.value.PyNone?
    ensures r.Ok? && r.value.PyNone? <==> !IsStr(v)
    ensures v.PyStr? ==> r == Ok(v)
    ensures r.Err? <==> v.PyBytes? && decode(v.bytes).None?
    ensures v.PyBytes? && decode(v.bytes).Some? ==> r == Ok(PyStr(decode(v.bytes).value))
  {
    match v
    case PyBytes(b) =>
      (match decode(b)
       case None => Err("UnicodeDecodeError")
       case Some(s) => Ok(PyStr(s)))
    case PyStr(_) => Ok(v)
    case _ => Ok(PyNone)
  }

  /** Converting a converted string again changes nothing. */
  lemma Conv2StrIdempotent(v: PyValue, decode: seq<Byte> -> Option<string>)
    requires Conv2Str(v, decode).Ok? && IsStr(v)
    ensures Conv2Str(Conv2Str(v, decode).value, decode) == Conv2Str(v, decode)
  {
  }
}
