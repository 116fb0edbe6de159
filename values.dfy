/**
 * The values the container stores and returns, the outcome of calling a
 * user callable, and the error kinds the container raises.
 */
module Values {

  /** A PHP `mixed` value, as far as the container cares about it. A closure
      (or any other object) is known only by an opaque handle. */
  datatype Value = Null | Bool(b: bool) | Int(i: int) | Str(s: string) | Closure(handle: nat)

  /** What a user callable does when it is called: it returns a value or
      throws an exception (itself an object, so a Value). */
  datatype CallOutcome = Returned(value: Value) | Threw(exception: Value)

  /** The behaviour of user callables on one occasion: given the callable
      payload and the argument list it receives, what the call does.
      A caller that passes a different Invoker on each call models a
      stateful callable (a counter, a `static` local). */
  type Invoker = (Value, seq<Value>) -> CallOutcome

  /** The errors the core raises. */
  datatype Error =
    | EntityMissing(id: string)   // the RuntimeException of either collection: "No entity found for '<id>'" or "No entry found for '<id>'"
    | NotFound(id: string)        // NotFoundException "Entity not found with key '<id>'"
    | CallFailure(exception: Value) // an exception thrown by a user callable, propagated unchanged

  datatype Result<+T> = Ok(value: T) | Err(error: Error)

  /** The outcome of an operation that returns nothing but may throw. */
  datatype Status = Done | Failed(error: Error)
}

/**
 * The two PHP array primitives the core leans on: strict `in_array`, and
 * writing a list of items into an array keyed by each item's id, in order.
 */
module PhpArrays {

  /** `in_array($x, $xs, true)`: strict comparison, a linear scan. */
  function InArray<T(==)>(xs: seq<T>, x: T): (found: bool)
    ensures found <==> x in xs
  {
    if xs == [] then false else xs[0] == x || InArray(xs[1..], x)
  }

  predicate NoDup<T(==)>(xs: seq<T>) {
    forall i, j :: 0 <= i < j < |xs| ==> xs[i] != xs[j]
  }

  lemma NoDupAppend<T>(xs: seq<T>, x: T)
    requires NoDup(xs) && x !in xs
    ensures NoDup(xs + [x])
  {
  }

  /** The array obtained by `foreach ($xs as $x) { $a[key($x)] = $x; }`
      starting from an empty array. */
  function LastWins<T>(xs: seq<T>, key: T -> string): (m: map<string, T>)
    decreases |xs|
  {
    if xs == [] then map[]
    else LastWins(xs[..|xs| - 1], key)[key(xs[|xs| - 1]) := xs[|xs| - 1]]
  }

  /** Its keys are exactly the keys of the items, and each key holds the
      LAST item that has it. */
  lemma {:induction false} LastWinsLookup<T>(xs: seq<T>, key: T -> string)
    ensures forall k :: k in LastWins(xs, key) <==> exists i :: 0 <= i < |xs| && key(xs[i]) == k
    ensures forall i :: 0 <= i < |xs| && (forall j :: i < j < |xs| ==> key(xs[j]) != key(xs[i])) ==>
              key(xs[i]) in LastWins(xs, key) && LastWins(xs, key)[key(xs[i])] == xs[i]
    decreases |xs|
  {
    if xs != [] {
      var init := xs[..|xs| - 1];
      LastWinsLookup(init, key);
      forall k ensures k in LastWins(xs, key) <==> exists i :: 0 <= i < |xs| && key(xs[i]) == k {
        if k in LastWins(xs, key) && k != key(xs[|xs| - 1]) {
          var i :| 0 <= i < |init| && key(init[i]) == k;
          assert xs[i] == init[i];
        }
        if exists i :: 0 <= i < |xs| && key(xs[i]) == k {
          var i :| 0 <= i < |xs| && key(xs[i]) == k;
          if i < |init| { assert init[i] == xs[i]; }
        }
      }
      forall i | 0 <= i < |xs| && (forall j :: i < j < |xs| ==> key(xs[j]) != key(xs[i]))
        ensures key(xs[i]) in LastWins(xs, key) && LastWins(xs, key)[key(xs[i])] == xs[i]
      {
        if i < |init| {
          assert init[i] == xs[i];
          forall j | i < j < |init| ensures key(init[j]) != key(init[i]) {
            assert init[j] == xs[j];
          }
        }
      }
    }
  }
}
