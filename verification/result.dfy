/** The bot's Ok/Err container: every fallible operation returns one of these
    instead of throwing. The aborting eliminators (`unwrap`, `unwrap_err`,
    `expect`) end the process when used on the wrong variant; here that abort
    is a precondition the caller must discharge. */
module Results {
  import opened Values

  datatype Result<T, E> = Ok(value: T) | Err(error: E) {

    /** `is_ok`: holds exactly for a value built by `Ok`. */
    function IsOk(): (b: bool)
      ensures b <==> Ok? && this == Ok(value)
      ensures !b <==> Err? && this == Err(error)
    {
      Ok?
    }

    /** `is_err` is the exact negation of `is_ok`. */
    function IsErr(): (b: bool)
      ensures b <==> !IsOk()
      ensures b ==> this == Err(error)
    {
      Err?
    }

    /** The payload of an Ok; an Err aborts the process. */
    function Unwrap(): (v: T)
      requires IsOk()
      ensures this == Ok(v)
    {
      value
    }

    /** The payload of an Err; an Ok aborts the process. */
    function UnwrapErr(): (e: E)
      requires IsErr()
      ensures this == Err(e)
    {
      error
    }

    /** Like `Unwrap`; the reason only decorates the abort message. */
    function Expect(reason: string): (v: T)
      requires IsOk()
      ensures this == Ok(v)
      ensures v == Unwrap()
    {
      value
    }

    /** Total elimination: exactly one callback is applied to the payload. */
    function Match<U>(onOk: T -> U, onErr: E -> U): (u: U)
      ensures IsOk() ==> u == onOk(Unwrap())
      ensures IsErr() ==> u == onErr(UnwrapErr())
    {
      match this
      case Ok(v) => onOk(v)
      case Err(e) => onErr(e)
    }

    /** Continue with `f` on an Ok; an Err is returned as it is. */
    function AndThen<U>(f: T -> Result<U, E>): (r: Result<U, E>)
      ensures IsErr() ==> r == Err(UnwrapErr())
      ensures IsOk() ==> r == f(Unwrap())
    {
      match this
      case Ok(v) => f(v)
      case Err(e) => Err(e)
    }

    /** Recover with `f` on an Err; an Ok is returned as it is. */
    function OrElse<F>(f: E -> Result<T, F>): (r: Result<T, F>)
      ensures IsOk() ==> r == Ok(Unwrap())
      ensures IsErr() ==> r == f(UnwrapErr())
    {
      match this
      case Ok(v) => Ok(v)
      case Err(e) => f(e)
    }
  }

  /** The payload a constructor stores for its optional argument: the argument
      itself when present and truthy, the `Nothing` marker otherwise. */
  function Stored(arg: Option<Value>): (p: Payload)
    ensures p != Null
    ensures arg.Some? && Truthy(arg.value) ==> p == arg.value
    ensures arg.None? || !Truthy(arg.value) ==> p == Nothing
  {
    if arg.Some? && Truthy(arg.value) then arg.value else Nothing
  }

  /** The exported `Ok(value?)` factory; both sides of its Result hold
      untyped payloads. */
  function OkOf(arg: Option<Value>): (r: Result<Payload, Payload>)
    ensures r.IsOk()
    ensures r.Unwrap() == Stored(arg)
  {
    Ok(Stored(arg))
  }

  /** The exported `Err(value?)` factory. */
  function ErrOf(arg: Option<Value>): (r: Result<Payload, Payload>)
    ensures r.IsErr()
    ensures r.UnwrapErr() == Stored(arg)
  {
    Err(Stored(arg))
  }

  /** Storing is stable: re-wrapping a stored payload keeps it. */
  lemma StoredIsStable(arg: Option<Value>)
    ensures Stored(Some(Stored(arg))) == Stored(arg)
  {
  }

  /** Left identity: `Ok(v).and_then(f)` is `f(v)` for a truthy `v`. */
  lemma AndThenLeftIdentity<U>(v: Value, f: Payload -> Result<U, Payload>)
    requires Truthy(v)
    ensures OkOf(Some(v)).AndThen(f) == f(v)
  {
  }

  /** Right identity: continuing with `Ok` changes nothing. */
  lemma AndThenRightIdentity<T, E>(r: Result<T, E>)
    ensures r.AndThen(x => Ok(x)) == r
  {
  }

  /** Associativity of chaining. */
  lemma AndThenAssociative<T, U, V, E>(r: Result<T, E>, f: T -> Result<U, E>, g: U -> Result<V, E>)
    ensures r.AndThen(f).AndThen(g) == r.AndThen(x => f(x).AndThen(g))
  {
  }

  /** An Err never consults the callback: any two callbacks give the same. */
  lemma AndThenSkipsCallbackOnErr<T, U, E>(e: E, f: T -> Result<U, E>, g: T -> Result<U, E>)
    ensures Err(e).AndThen(f) == Err(e).AndThen(g) == Err(e)
  {
  }

  /** An Ok never consults the recovery callback. */
  lemma OrElseSkipsCallbackOnOk<T, E, F>(v: T, f: E -> Result<T, F>, g: E -> Result<T, F>)
    ensures Ok(v).OrElse(f) == Ok(v).OrElse(g) == Ok(v)
  {
  }

  /** `and_then` and `or_else` are the two halves of `match`. */
  lemma CombinatorsAreMatches<T, U, E>(r: Result<T, E>, f: T -> Result<U, E>, g: E -> Result<T, E>)
    ensures r.AndThen(f) == r.Match(f, e => Err(e))
    ensures r.OrElse(g) == r.Match(v => Ok(v), g)
    ensures r.Match(v => Ok(v), e => Err(e)) == r
  {
  }

  /** A pipeline `r.and_then(steps[0]).and_then(steps[1])...`. */
  function Chain<T, E>(r: Result<T, E>, steps: seq<T -> Result<T, E>>): Result<T, E>
    decreases |steps|
  {
    if |steps| == 0 then r else Chain(r.AndThen(steps[0]), steps[1..])
  }

  /** An Err at the head of a pipeline is the result of the whole pipeline. */
  lemma {:induction false} ChainPropagatesErr<T, E>(e: E, steps: seq<T -> Result<T, E>>)
    ensures Chain(Err(e), steps) == Err(e)
    decreases |steps|
  {
    if |steps| > 0 {
      ChainPropagatesErr(e, steps[1..]);
    }
  }

  /** Running a pipeline in two pieces is running it whole. */
  lemma {:induction false} ChainSplits<T, E>(r: Result<T, E>, steps: seq<T -> Result<T, E>>, k: nat)
    requires k <= |steps|
    ensures Chain(r, steps) == Chain(Chain(r, steps[..k]), steps[k..])
    decreases k
  {
    if k > 0 {
      assert steps[..k][0] == steps[0];
      assert steps[..k][1..] == steps[1..][..k - 1];
      assert steps[k..] == steps[1..][k - 1..];
      ChainSplits(r.AndThen(steps[0]), steps[1..], k - 1);
    }
  }

  /** The first Err a pipeline reaches is the result of the whole pipeline:
      once the first `k` steps have produced an Err, the rest change nothing. */
  lemma FirstErrIsFinal<T, E>(r: Result<T, E>, steps: seq<T -> Result<T, E>>, k: nat)
    requires k <= |steps|
    requires Chain(r, steps[..k]).IsErr()
    ensures Chain(r, steps) == Chain(r, steps[..k])
  {
    ChainSplits(r, steps, k);
    ChainPropagatesErr(Chain(r, steps[..k]).UnwrapErr(), steps[k..]);
  }
}
