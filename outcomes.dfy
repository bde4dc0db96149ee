/** Datatypes for the ways a call of the binding can end, and counting over sequences. */
module Outcomes {

  /** `Option<T>`: a slot that is empty or holds one value. */
  datatype Option<T> = None | Some(value: T)

  /** `Result<T, E>`: an error handed back to the caller as a value. */
  datatype Result<T, E> = Success(value: T) | Failure(error: E)

  /** How a call ends: it returns a value, or it panics with a message.
      A panic is never a value the caller can inspect; the thread unwinds. */
  datatype Outcome<T> = Returned(value: T) | Panicked(message: string)

  /** The number of occurrences of `x` in `s`. */
  function CountOf<T(==)>(s: seq<T>, x: T): nat
  {
    if s == [] then 0 else (if s[0] == x then 1 else 0) + CountOf(s[1..], x)
  }

  lemma {:induction false} CountOfAppend<T>(a: seq<T>, b: seq<T>, x: T)
    ensures CountOf(a + b, x) == CountOf(a, x) + CountOf(b, x)
  {
    if a == [] {
      assert a + b == b;
    } else {
      assert (a + b)[1..] == a[1..] + b;
      CountOfAppend(a[1..], b, x);
    }
  }
}
