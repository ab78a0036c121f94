/**
 * The `for (const line of lines)` loop both raw-text parsers run: a body applied
 * to each line in turn, carrying the loop's variables forward, and stopping at
 * the first line whose body throws.
 */
module LineLoop {
  import opened Wrappers

  /** The loop over `lines` from the variables `start`, with body `step`. */
  function Fold<S, E>(start: S, lines: seq<string>, step: (S, string) -> Result<S, E>): Result<S, E>
    decreases |lines|
  {
    if lines == [] then Success(start)
    else match Fold(start, lines[..|lines| - 1], step)
      case Failure(e) => Failure(e)
      case Success(s) => step(s, lines[|lines| - 1])
  }

  /** One more line: the loop over `lines[..k + 1]` is the body applied after the loop over `lines[..k]`. */
  lemma FoldPrefix<S, E>(start: S, lines: seq<string>, k: nat, step: (S, string) -> Result<S, E>)
    requires k < |lines|
    ensures Fold(start, lines[..k + 1], step) == match Fold(start, lines[..k], step)
      case Failure(e) => Failure(e)
      case Success(s) => step(s, lines[k])
  {
    assert lines[..k + 1][..k] == lines[..k];
  }

  /** Once the loop has thrown, the remaining lines do not change the error. */
  lemma {:induction false} FoldFailureSticks<S, E>(start: S, lines: seq<string>, k: nat, step: (S, string) -> Result<S, E>)
    requires k <= |lines| && Fold(start, lines[..k], step).Failure?
    ensures Fold(start, lines, step) == Fold(start, lines[..k], step)
    decreases |lines| - k
  {
    if k < |lines| {
      FoldPrefix(start, lines, k, step);
      FoldFailureSticks(start, lines, k + 1, step);
    } else {
      assert lines[..k] == lines;
    }
  }

  /** Lines the body leaves the starting variables unchanged on lead the loop back to where it started. */
  lemma {:induction false} FoldIdle<S, E>(start: S, lines: seq<string>, step: (S, string) -> Result<S, E>)
    requires forall i | 0 <= i < |lines| :: step(start, lines[i]) == Success(start)
    ensures Fold(start, lines, step) == Success(start)
    decreases |lines|
  {
    if lines != [] {
      var init := lines[..|lines| - 1];
      assert forall i | 0 <= i < |init| :: init[i] == lines[i];
      FoldIdle(start, init, step);
    }
  }

  /** Lines that bring the loop back to its starting variables can be dropped from the front. */
  lemma {:induction false} FoldAfterRestart<S, E>(start: S, front: seq<string>, rest: seq<string>,
    step: (S, string) -> Result<S, E>)
    requires Fold(start, front, step) == Success(start)
    ensures Fold(start, front + rest, step) == Fold(start, rest, step)
    decreases |rest|
  {
    if rest == [] {
      assert front + rest == front;
    } else {
      var all := front + rest;
      assert all[..|all| - 1] == front + rest[..|rest| - 1];
      assert all[|all| - 1] == rest[|rest| - 1];
      FoldAfterRestart(start, front, rest[..|rest| - 1], step);
    }
  }

  /** A property of the variables that holds at the start and that every body which does not throw keeps holds at the end. */
  lemma {:induction false} FoldKeeps<S(!new), E>(start: S, lines: seq<string>, step: (S, string) -> Result<S, E>, inv: S -> bool)
    requires inv(start)
    requires forall s, line :: inv(s) && step(s, line).Success? ==> inv(step(s, line).value)
    ensures Fold(start, lines, step).Success? ==> inv(Fold(start, lines, step).value)
    decreases |lines|
  {
    if lines != [] {
      FoldKeeps(start, lines[..|lines| - 1], step, inv);
    }
  }
}
