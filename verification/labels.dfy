/** Emotion labels: the alphabet shared by the smoother, the media selector and the session log. */
module Labels {

  /** A raw or stabilized emotion tag, as produced by the external face analyser. */
  type Label = string

  /** The label reported while no detection has been made yet. */
  const Neutral: Label := "neutral"

  /** The keys of the emotion table (main.py:58-113): the categories the media selector knows. */
  const Emotions: set<Label> := {"happy", "sad", "angry", "fear", "surprise", "neutral"}

  /** Python's `None`-or-value. */
  datatype Option<T> = None | Some(value: T)

  /** Python's `deque.count` on the window: how often `x` occurs in `w`. */
  function Count(w: seq<Label>, x: Label): nat
  {
    multiset(w)[x]
  }

  /** A sequence of `n` copies of `x`. */
  function Repeat(x: Label, n: nat): (r: seq<Label>)
    ensures |r| == n
    ensures forall i :: 0 <= i < n ==> r[i] == x
  {
    if n == 0 then [] else Repeat(x, n - 1) + [x]
  }

  lemma {:induction false} CountRepeat(x: Label, y: Label, n: nat)
    ensures Count(Repeat(x, n), y) == if x == y then n else 0
  {
    if n > 0 {
      CountRepeat(x, y, n - 1);
      assert multiset(Repeat(x, n)) == multiset(Repeat(x, n - 1)) + multiset{x};
    }
  }
}
