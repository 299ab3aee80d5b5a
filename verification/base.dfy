/** Small shared vocabulary: optional values, the failures the trainer can raise,
    and a failure-compatible result type. */
module Base {

  /** Python's `None` next to a present value. */
  datatype Option<+T> = None | Some(value: T)

  /** The exceptions the modelled code lets escape, named after their Python cause. */
  datatype Error =
    | ZeroDivision                  // `x / 0` on an empty loader or a zero `min_lr`
    | KeyMissing(key: string)       // `metrics['train'][name]` for an unregistered name
    | IndexOutOfRange               // `lst[-1]` or `lst[0]` on an empty list
    | NoneArithmetic                // `None + float` after a `None` validation loss
    | NoneComparison                // `np.argmin` over a history holding `None` and a number
    | MissingAttribute(name: string) // reading an attribute that was never assigned
    | MissingArgument(name: string) // a call that leaves out a required argument
    | FileMissing(path: string)     // `torch.load` of an absent checkpoint
    | AssertionFailed(what: string) // a failed `assert` in a constructor
    | InvalidValue(what: string)    // `ValueError` from `torch.optim.SGD` for a negative rate
    | KeyboardInterrupt             // the user pressed Ctrl-C while a loop was running

  datatype Result<+T> = Ok(value: T) | Err(error: Error) {
    predicate IsFailure() {
      Err?
    }

    function PropagateFailure<U>(): Result<U>
      requires Err?
    {
      Err(error)
    }

    function Extract(): T
      requires Ok?
    {
      value
    }
  }

  function Min(a: int, b: int): int {
    if a <= b then a else b
  }

  function Max(a: int, b: int): int {
    if a >= b then a else b
  }

  function MinReal(a: real, b: real): real {
    if a <= b then a else b
  }

  lemma ProductNonNegative(a: real, b: real)
    requires a >= 0.0 && b >= 0.0
    ensures a * b >= 0.0
  {
  }

  /** Euclidean division has one quotient and remainder. */
  lemma DivModUnique(x: int, d: int, q: int, r: int)
    requires d >= 1 && 0 <= r < d && x == q * d + r
    ensures x / d == q && x % d == r
  {
    var q', r' := x / d, x % d;
    assert x == q' * d + r';
    assert (q - q') * d == r' - r;
    MultipleOutsideOpenInterval(q - q', d);
  }

  /** A non-zero multiple of `d` is at least `d` away from zero. */
  lemma MultipleOutsideOpenInterval(k: int, d: int)
    requires d >= 1
    ensures k >= 1 ==> k * d >= d
    ensures k <= -1 ==> k * d <= -d
  {
    if k >= 1 {
      MulNonNegative(k - 1, d);
      assert k * d - d == (k - 1) * d;
    } else if k <= -1 {
      MulNonNegative(-k - 1, d);
      assert -k * d - d == (-k - 1) * d;
    }
  }

  lemma MulNonNegative(a: int, b: int)
    requires a >= 0 && b >= 0
    ensures a * b >= 0
  {
  }
}
