/**
 * Shared vocabulary of the model: optional values, results carrying the
 * exceptions the Python code raises, identifiers and timestamps.
 */
module Common {

  datatype Option<+T> = None | Some(value: T)

  /** What a raised exception looks like to the caller. */
  datatype Error =
    | ValueError(reason: ValueReason)        // raised by value-object validation
    | InvalidOrderData(detail: OrderDataDetail)
    | OrderCannotBeModified
    | OrderItemNotFound
    | OrderNotFound
    | InvalidUserData
    | UserNotFound
    | UserEmailAlreadyExists
    | CacheUnavailable                       // a cache call that raised and was not caught
    | ReadModelUnavailable                   // a read-model query that raised and was not caught
    | MalformedDocument                      // a stored dictionary that does not decode

  datatype ValueReason =
    | NegativeAmount | BadCurrency | CurrencyMismatch
    | EmptyStreet | EmptyCity | EmptyCountry
    | EmptyEmail | BadEmailFormat
    | NotAUuid

  datatype OrderDataDetail = EmptyProductName | NonPositiveQuantity | NoItems

  /** A call that either returns a value or raises. */
  datatype Result<+T> = Ok(value: T) | Err(error: Error) {
    predicate IsFailure() { Err? }
    function PropagateFailure<U>(): Result<U> requires Err? { Err(error) }
    function Extract(): T requires Ok? { value }
  }

  /** A call that returns nothing or raises. */
  datatype Outcome = Pass | Fail(error: Error)

  /** 2^128: UUIDs are 128-bit values. */
  const UuidBound: nat := 0x1_0000_0000_0000_0000_0000_0000_0000_0000

  type Uuid = n: nat | n < UuidBound

  /** A `datetime`, as microseconds since an epoch. */
  type Timestamp = nat

  /** `[f(x) for x in xs]` where `f` may raise: the first failure is raised. */
  function Traverse<A, B>(f: A -> Result<B>, xs: seq<A>): (r: Result<seq<B>>)
    ensures r.Ok? <==> forall i :: 0 <= i < |xs| ==> f(xs[i]).Ok?
    ensures r.Ok? ==> |r.value| == |xs| && forall i :: 0 <= i < |xs| ==> f(xs[i]) == Ok(r.value[i])
  {
    if xs == [] then Ok([])
    else match (f(xs[0]), Traverse(f, xs[1..]))
      case (Err(e), _) => Err(e)
      case (Ok(_), Err(e)) => Err(e)
      case (Ok(y), Ok(rest)) => Ok([y] + rest)
  }

  /** `f` applied to each element in turn, the results concatenated. */
  function FlatMap<A, B>(f: A -> seq<B>, xs: seq<A>): seq<B> {
    if xs == [] then [] else FlatMap(f, xs[..|xs| - 1]) + f(xs[|xs| - 1])
  }

  lemma FlatMapSnoc<A, B>(f: A -> seq<B>, xs: seq<A>, x: A)
    ensures FlatMap(f, xs + [x]) == FlatMap(f, xs) + f(x)
  {
    assert (xs + [x])[..|xs|] == xs;
  }

  lemma {:induction false} FlatMapAppend<A, B>(f: A -> seq<B>, a: seq<A>, b: seq<A>)
    ensures FlatMap(f, a + b) == FlatMap(f, a) + FlatMap(f, b)
    decreases |b|
  {
    if b == [] {
      assert a + b == a;
    } else {
      var b', last := b[..|b| - 1], b[|b| - 1];
      assert b == b' + [last];
      assert a + b == (a + b') + [last];
      calc {
        FlatMap(f, a + b);
        { FlatMapSnoc(f, a + b', last); }
        FlatMap(f, a + b') + f(last);
        { FlatMapAppend(f, a, b'); }
        FlatMap(f, a) + FlatMap(f, b') + f(last);
        { FlatMapSnoc(f, b', last); }
        FlatMap(f, a) + FlatMap(f, b);
      }
    }
  }

  /** Every element of the flattening comes from one of the inputs. */
  lemma {:induction false} FlatMapMember<A, B>(f: A -> seq<B>, xs: seq<A>, y: B)
    requires y in FlatMap(f, xs)
    ensures exists i :: 0 <= i < |xs| && y in f(xs[i])
    decreases |xs|
  {
    assert xs != [];
    var init := xs[..|xs| - 1];
    if y in FlatMap(f, init) {
      FlatMapMember(f, init, y);
      var i :| 0 <= i < |init| && y in f(init[i]);
      assert init[i] == xs[i];
    }
  }

  /** Two functions that agree on every input flatten alike. */
  lemma {:induction false} FlatMapAgree<A, B>(f: A -> seq<B>, g: A -> seq<B>, xs: seq<A>)
    requires forall i :: 0 <= i < |xs| ==> f(xs[i]) == g(xs[i])
    ensures FlatMap(f, xs) == FlatMap(g, xs)
    decreases |xs|
  {
    if xs != [] {
      var init := xs[..|xs| - 1];
      assert forall i :: 0 <= i < |init| ==> init[i] == xs[i];
      FlatMapAgree(f, g, init);
    }
  }
}
