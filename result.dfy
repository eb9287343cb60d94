/*
  A model of the C++ module `result`: the Result<ok_t, err_t> container, a two-variant
  tagged value in the style of Rust's std::result.

  - The factories Ok(), Ok(v) and Err(e) build transient Success/Failure wrappers.
  - A Result is built once from a wrapper. It holds a discriminant (`success`) and one
    payload in shared storage (`storage`), and never changes afterwards.
  - The accessors are const reads. The ones that can be misused end the process after
    writing a diagnostic line to the standard error stream; here that outcome is a value
    of type Exit.
  - The ghost log `teardowns` records every run of a Result's destructor, so that the
    lifetime discipline (destroyed once, only the active payload) can be stated.
*/
module Results {

  /** `None` is a pointer to the empty struct None__; `Ok()` stores its null value. */
  datatype None = Null | NonNull(address: nat)

  /** The transient wrapper that tags a payload as the success case. */
  datatype Success<T> = Success(value: T)

  /** The transient wrapper that tags a payload as the failure case. */
  datatype Failure<E> = Failure(value: E)

  /** Ok(): success that carries no value, only the null sentinel. */
  function OkNone(): (s: Success<None>)
    ensures s.value == Null
  {
    Success(Null)
  }

  /** Ok(v): success carrying (a decayed copy of) v. */
  function Ok<T>(value: T): (s: Success<T>)
    ensures s.value == value
  {
    Success(value)
  }

  /** Err(e): failure carrying (a decayed copy of) e. */
  function Err<E>(value: E): (f: Failure<E>)
    ensures f.value == value
  {
    Failure(value)
  }

  /** The two terminal states of a Result: which payload is live, and its value. */
  datatype Active<T, E> = ActiveSuccess(ok: T) | ActiveFailure(err: E)

  /** What the raw storage holds: no live object, or one payload of either type. */
  datatype Slot<T, E> = Vacant | OkPayload(ok: T) | ErrPayload(err: E)

  /** One run of a Result's destructor: which payload destructor it called, and on what. */
  datatype Teardown<T, E> = RanOkDestructor(target: Slot<T, E>) | RanErrDestructor(target: Slot<T, E>)

  /** How an accessor call ends: it returns a value, or it writes `stderr` and terminates. */
  datatype Exit<T> = Returns(value: T) | Terminates(stderr: string)

  /** The fixed diagnostics of the two misuse paths. */
  const GetOkMisuse: string := "Attempting to Result::GetOk an error Result."
  const GetErrMisuse: string := "Attempting to Result::GetErr an ok Result."

  /** The storage content that holds exactly the live payload of `a`. */
  function SlotOf<T, E>(a: Active<T, E>): Slot<T, E>
  {
    match a
    case ActiveSuccess(v) => OkPayload(v)
    case ActiveFailure(e) => ErrPayload(e)
  }

  /** A destructor run is sound when it ends the lifetime of a live payload of its own type. */
  predicate Sound<T, E>(t: Teardown<T, E>)
  {
    match t
    case RanOkDestructor(s) => s.OkPayload?
    case RanErrDestructor(s) => s.ErrPayload?
  }

  /** ErrorTerminate: the line written to the error stream, then process termination. */
  function ErrorTerminate<X>(str: string): Exit<X>
  {
    Terminates(str + "\n")
  }

  class Result<T, E> {
    // the implementation's state:
    var success: bool
    var storage: Slot<T, E>

    // the public view: the outcome fixed at construction, and the destructor runs so far
    ghost var Value: Active<T, E>
    ghost var teardowns: seq<Teardown<T, E>>

    /** A live Result: not yet destroyed, the discriminant names the live payload, and the
        storage holds exactly that payload. */
    ghost predicate Valid()
      reads this
    {
      && teardowns == []
      && success == Value.ActiveSuccess?
      && storage == SlotOf(Value)
    }

    /** The lifetime discipline, once the Result has gone: exactly one destructor run, and
        that run called the destructor of the type the discriminant names on storage that
        held exactly this Result's own payload. */
    ghost predicate DestroyedOnce()
      reads this
    {
      teardowns == [if success then RanOkDestructor(SlotOf(Value)) else RanErrDestructor(SlotOf(Value))]
    }

    /** Result(const Success<ok_t>&): the success payload becomes the live one. */
    constructor FromSuccess(ok: Success<T>)
      ensures Valid() && Value == ActiveSuccess(ok.value)
    {
      success := true;
      storage := OkPayload(ok.value);
      Value := ActiveSuccess(ok.value);
      teardowns := [];
    }

    /** Result(const Failure<err_t>&): the failure payload becomes the live one. */
    constructor FromFailure(err: Failure<E>)
      ensures Valid() && Value == ActiveFailure(err.value)
    {
      success := false;
      storage := ErrPayload(err.value);
      Value := ActiveFailure(err.value);
      teardowns := [];
    }

    /** Result(const Result&): same discriminant, a new payload of the active type copied
        from the source's; the source is left as it was. */
    constructor Copy(source: Result<T, E>)
      requires source.Valid()
      ensures Valid() && Value == source.Value
      ensures ToBool() == source.ToBool() && forall d :: TryGet(d) == source.TryGet(d)
    {
      success := source.success;
      if source.success {
        storage := OkPayload(source.storage.ok);
      } else {
        storage := ErrPayload(source.storage.err);
      }
      Value := source.Value;
      teardowns := [];
      new;
      IndistinguishableIff(this, source);
    }

    /** Result(Result&&) as written: the payload is moved into the new Result, and then the
        source's destructor is called on the spot. */
    constructor MoveAsWritten(source: Result<T, E>)
      requires source.Valid()
      modifies source
      ensures Valid() && Value == old(source.Value)
      ensures source.success == old(source.success) && source.Value == old(source.Value)
      ensures source.storage == Vacant && source.DestroyedOnce()
    {
      success := source.success;
      if source.success {
        storage := OkPayload(source.storage.ok);
      } else {
        storage := ErrPayload(source.storage.err);
      }
      Value := source.Value;
      teardowns := [];
      new;
      source.Destroy();
    }

    /** Result(Result&&) without the call to the source's destructor: the payload is moved
        into the new Result, and the source stays live, with a payload of the same type in
        a moved-from state, for its own destructor to tear down later. */
    constructor Move(source: Result<T, E>)
      requires source.Valid()
      modifies source
      ensures Valid() && Value == old(source.Value)
      ensures source.Valid() && source.success == old(source.success)
    {
      success := source.success;
      if source.success {
        storage := OkPayload(source.storage.ok);
      } else {
        storage := ErrPayload(source.storage.err);
      }
      Value := source.Value;
      teardowns := [];
    }

    /** ~Result(): calls the destructor of the payload type the discriminant names, and of
        no other. On a live Result that tears down exactly its live payload. */
    method Destroy()
      modifies this
      ensures success == old(success) && Value == old(Value)
      ensures storage == Vacant
      ensures |teardowns| == |old(teardowns)| + 1 && teardowns[..|old(teardowns)|] == old(teardowns)
      ensures teardowns[|old(teardowns)|].RanOkDestructor? == old(success)
      ensures teardowns[|old(teardowns)|].target == old(storage)
      ensures old(Valid()) ==> DestroyedOnce()
    {
      if success {
        teardowns := teardowns + [RanOkDestructor(storage)];
      } else {
        teardowns := teardowns + [RanErrDestructor(storage)];
      }
      storage := Vacant;
    }

    /** operator bool: true exactly when the success payload is the live one. */
    function ToBool(): (b: bool)
      reads this
      requires Valid()
      ensures b <==> Value.ActiveSuccess?
    {
      success
    }

    /** TryGet(defval): the success payload when there is one, the caller's default otherwise. */
    function TryGet(default: T): (r: T)
      reads this
      requires Valid()
      ensures Value.ActiveSuccess? ==> r == Value.ok
      ensures Value.ActiveFailure? ==> r == default
    {
      if success then storage.ok else default
    }

    /** GetOk(): the success payload; on a failure, the fixed GetOk diagnostic and termination. */
    function GetOk(): (r: Exit<T>)
      reads this
      requires Valid()
      ensures r.Returns? <==> Value.ActiveSuccess?
      ensures r.Returns? ==> r.value == Value.ok
      ensures r.Terminates? ==> r.stderr == GetOkMisuse + "\n"
    {
      if !success then ErrorTerminate(GetOkMisuse) else Returns(storage.ok)
    }

    /** GetErr(): the failure payload; on a success, the fixed GetErr diagnostic and termination. */
    function GetErr(): (r: Exit<E>)
      reads this
      requires Valid()
      ensures r.Returns? <==> Value.ActiveFailure?
      ensures r.Returns? ==> r.value == Value.err
      ensures r.Terminates? ==> r.stderr == GetErrMisuse + "\n"
    {
      if success then ErrorTerminate(GetErrMisuse) else Returns(storage.err)
    }

    /** Expect(msg), for an ok type other than None: the success payload; on a failure,
        exactly the caller's message, then termination. */
    function Expect(msg: string): (r: Exit<T>)
      reads this
      requires Valid()
      ensures r.Returns? <==> Value.ActiveSuccess?
      ensures r.Returns? ==> r.value == Value.ok
      ensures r.Terminates? ==> r.stderr == msg + "\n"
    {
      if !success then ErrorTerminate(msg) else Returns(storage.ok)
    }
  }

  /** Expect(msg) when the ok type is None: nullptr on a success, whatever pointer is stored;
      on a failure, exactly the caller's message, then termination. */
  function ExpectNone<E>(r: Result<None, E>, msg: string): (x: Exit<None>)
    reads r
    requires r.Valid()
    ensures x.Returns? <==> r.Value.ActiveSuccess?
    ensures x.Returns? ==> x.value == Null
    ensures x.Terminates? ==> x.stderr == msg + "\n"
  {
    if !r.success then ErrorTerminate(msg) else Returns(Null)
  }

  /** The queries a caller can make without risking termination (the boolean conversion,
      TryGet with any default, and GetErr once the boolean conversion has said false)
      determine a live Result completely: two live Results answer all of them alike exactly
      when they hold the same variant with the same payload. */
  lemma IndistinguishableIff<T, E>(a: Result<T, E>, b: Result<T, E>)
    requires a.Valid() && b.Valid()
    ensures (&& a.ToBool() == b.ToBool()
             && (forall d :: a.TryGet(d) == b.TryGet(d))
             && (!a.ToBool() ==> a.GetErr() == b.GetErr()))
            <==> a.Value == b.Value
  {
    if a.Value.ActiveSuccess? && b.Value.ActiveSuccess? {
      var v := a.Value.ok;
      assert a.TryGet(v) == a.Value.ok && b.TryGet(v) == b.Value.ok;
    }
  }

  /** TryGet's default matters exactly on a failure: given two distinct candidate defaults,
      a Result is a success exactly when TryGet answers alike for every default. */
  lemma TryGetIgnoresDefaultIff<T, E>(r: Result<T, E>, d0: T, d1: T)
    requires r.Valid() && d0 != d1
    ensures r.ToBool() <==> forall d :: r.TryGet(d) == r.TryGet(d0)
  {
    if !r.ToBool() {
      assert r.TryGet(d1) != r.TryGet(d0);
    }
  }

  /** A Result built from Ok(v): it converts to true, and every accessor that returns hands
      back v, while GetErr terminates with its fixed diagnostic. */
  method OkRoundTrip<T, E>(v: T, default: T, msg: string)
    returns (truthy: bool, tried: T, got: Exit<T>, expected: Exit<T>, err: Exit<E>)
    ensures truthy && tried == v
    ensures got == Returns(v) && expected == Returns(v)
    ensures err == Terminates(GetErrMisuse + "\n")
  {
    var r := new Result<T, E>.FromSuccess(Ok(v));
    truthy := r.ToBool();
    tried := r.TryGet(default);
    got := r.GetOk();
    expected := r.Expect(msg);
    err := r.GetErr();
  }

  /** A Result built from Ok(): it converts to true and Expect returns nullptr. */
  method OkNoneRoundTrip<E>(msg: string) returns (truthy: bool, expected: Exit<None>)
    ensures truthy && expected == Returns(Null)
  {
    var r := new Result<None, E>.FromSuccess(OkNone());
    truthy := r.ToBool();
    expected := ExpectNone(r, msg);
  }

  /** A Result built from Err(e): it converts to false, TryGet returns the default, GetErr
      returns e, GetOk terminates with its fixed diagnostic and Expect with the caller's. */
  method ErrRoundTrip<T, E>(e: E, default: T, msg: string)
    returns (truthy: bool, tried: T, got: Exit<T>, expected: Exit<T>, err: Exit<E>)
    ensures !truthy && tried == default && err == Returns(e)
    ensures got == Terminates(GetOkMisuse + "\n")
    ensures expected == Terminates(msg + "\n")
  {
    var r := new Result<T, E>.FromFailure(Err(e));
    truthy := r.ToBool();
    tried := r.TryGet(default);
    got := r.GetOk();
    expected := r.Expect(msg);
    err := r.GetErr();
  }

  /** A scope that move-constructs `target` from `source` and then ends, with the code as
      written: the destructors run in reverse order of construction, and the source's runs
      for the second time, on storage that holds no live payload. */
  method MoveThenLeaveScopeAsWritten<T, E>(source: Result<T, E>) returns (target: Result<T, E>)
    requires source.Valid()
    modifies source
    ensures fresh(target) && target.Value == old(source.Value) && target.DestroyedOnce()
    ensures |source.teardowns| == 2 && Sound(source.teardowns[0]) && !Sound(source.teardowns[1])
  {
    target := new Result.MoveAsWritten(source);
    target.Destroy();
    source.Destroy();
  }

  /** The same scope with the corrected move constructor: each Result is destroyed exactly
      once, each time tearing down its own live payload. */
  method MoveThenLeaveScope<T, E>(source: Result<T, E>) returns (target: Result<T, E>)
    requires source.Valid()
    modifies source
    ensures fresh(target) && target.Value == old(source.Value) && target.DestroyedOnce()
    ensures source.success == old(source.success) && source.DestroyedOnce()
  {
    target := new Result.Move(source);
    target.Destroy();
    source.Destroy();
  }
}
