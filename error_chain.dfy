/**
 * Go's error values as far as the dispatch engine relies on them: plain errors
 * (`errors.New`, sentinels, `fmt.Errorf` without `%w`) and wrapping errors built by
 * `fmt.Errorf("msg: %w", cause)`, whose chain `errors.Is` walks.
 */
module ErrorChain {

  datatype Error =
    | Leaf(text: string)
    | Wrap(msg: string, cause: Error)

  /** The text `Error()` returns. */
  function Text(e: Error): string {
    match e
    case Leaf(t) => t
    case Wrap(m, c) => m + ": " + Text(c)
  }

  /** `errors.Is(e, target)`: target occurs somewhere on e's unwrap chain. */
  predicate Is(e: Error, target: Error) {
    e == target || (e.Wrap? && Is(e.cause, target))
  }

  /** The two values `ctx.Err()` can report. */
  const Canceled: Error := Leaf("context canceled")
  const DeadlineExceeded: Error := Leaf("context deadline exceeded")

  /**
   * `fmt.Errorf(msg + ": %w", nil)`: fmt renders the nil operand as "%!w(<nil>)" and the
   * result unwraps to nothing, so it behaves as a plain error.
   */
  function WrapNil(msg: string): (e: Error)
    ensures e.Leaf? && Text(e) == msg + ": %!w(<nil>)"
    ensures forall t :: Is(e, t) <==> t == e
  {
    Leaf(msg + ": %!w(<nil>)")
  }

  /** Wrapping keeps every error of the cause's chain visible to `errors.Is`. */
  lemma {:induction false} IsTransitive(a: Error, b: Error, c: Error)
    requires Is(a, b) && Is(b, c)
    ensures Is(a, c)
  {
    if a != b {
      IsTransitive(a.cause, b, c);
    }
  }

  /** The text of a wrapping error starts with its own message. */
  lemma WrapTextPrefix(m: string, c: Error)
    ensures Text(Wrap(m, c)) == m + ": " + Text(c)
    ensures m <= Text(Wrap(m, c))
  {
    assert Text(Wrap(m, c))[..|m|] == m;
  }
}
