/** The sliding-window majority filter that turns noisy per-frame labels into a stable one. */
module Smoothing {
  import opened Labels

  /** The window length the application uses (main.py:154). */
  const DefaultSize: nat := 5

  /** A bounded FIFO window of the most recent raw labels, oldest first. */
  datatype Smoother = Smoother(size: nat, window: seq<Label>)
  {
    /** The bounded queue never holds more than its capacity. */
    predicate Valid() {
      |window| <= size
    }
  }

  /** A new filter with an empty window (main.py:154-155). */
  function New(size: nat): (s: Smoother)
    ensures s.Valid() && s.size == size && |s.window| == 0
  {
    Smoother(size, [])
  }

  /** The last `n` elements of `q` (all of `q` when it is shorter). */
  function LastN(q: seq<Label>, n: nat): (r: seq<Label>)
    ensures |r| == if |q| <= n then |q| else n
  {
    if |q| <= n then q else q[|q| - n..]
  }

  /** Append to a bounded queue: once the window is at capacity, the oldest label
      leaves before the new one enters; a zero-capacity queue stays empty. */
  function Add(s: Smoother, emo: Label): (r: Smoother)
    ensures r.size == s.size
    ensures r.Valid()
    ensures s.size > 0 ==> |r.window| > 0 && r.window[|r.window| - 1] == emo
    ensures |s.window| < s.size ==> r.window == s.window + [emo]
    ensures s.Valid() && |s.window| == s.size > 0 ==> r.window == s.window[1..] + [emo]
  {
    if |s.window| < s.size then Smoother(s.size, s.window + [emo])
    else if s.size == 0 then Smoother(s.size, [])
    else Smoother(s.size, s.window[|s.window| - s.size + 1..] + [emo])
  }

  /** Feed a stream of raw labels, earliest first. */
  function Feed(s: Smoother, labels: seq<Label>): Smoother
    decreases |labels|
  {
    if |labels| == 0 then s
    else Feed(Add(s, labels[0]), labels[1..])
  }

  /** Adding one label keeps exactly the newest `size` labels seen so far. */
  lemma AddKeepsNewest(s: Smoother, x: Label)
    requires s.Valid()
    ensures Add(s, x).window == LastN(s.window + [x], s.size)
  {
  }

  /** Window bound and eviction: whatever was fed, the window is exactly the newest
      `size` labels of everything seen, in arrival order. */
  lemma {:induction false} FeedKeepsNewest(s: Smoother, labels: seq<Label>)
    requires s.Valid()
    ensures Feed(s, labels).Valid()
    ensures Feed(s, labels).size == s.size
    ensures Feed(s, labels).window == LastN(s.window + labels, s.size)
    decreases |labels|
  {
    if |labels| > 0 {
      var s' := Add(s, labels[0]);
      AddKeepsNewest(s, labels[0]);
      FeedKeepsNewest(s', labels[1..]);
      assert s.window + labels == (s.window + [labels[0]]) + labels[1..];
      if s.size > 0 {
        LastNConcat(s.window + [labels[0]], labels[1..], s.size);
      }
    }
  }

  lemma LastNConcat(p: seq<Label>, q: seq<Label>, n: nat)
    requires n > 0
    ensures LastN(LastN(p, n) + q, n) == LastN(p + q, n)
  {
  }

  /** A fresh filter fed any stream holds the newest `size` labels of that stream. */
  lemma FreshFeed(size: nat, labels: seq<Label>)
    ensures |Feed(New(size), labels).window| <= size
    ensures Feed(New(size), labels).window == LastN(labels, size)
  {
    FeedKeepsNewest(New(size), labels);
    assert New(size).window + labels == labels;
  }

  /** `order` enumerates the distinct labels of `w` without repetition: this is how
      Python iterates `set(w)`, in an order the language leaves unspecified. */
  predicate IsEnumeration(order: seq<Label>, w: seq<Label>) {
    && (forall x :: x in order ==> x in w)
    && (forall x :: x in w ==> x in order)
    && (forall i, j :: 0 <= i < j < |order| ==> order[i] != order[j])
  }

  /** `r` is a label of `w` occurring at least as often as every other label of `w`. */
  predicate IsMostFrequent(r: Label, w: seq<Label>) {
    r in w && forall x :: x in w ==> Count(w, x) <= Count(w, r)
  }

  /** Python's `max(xs, key=w.count)` scan: `best` is the position of the current best
      among `xs[..i]`; a later label replaces it only if its count is strictly larger,
      so the first label of maximal count in visiting order wins. */
  function MaxByCount(xs: seq<Label>, w: seq<Label>, best: nat, i: nat): (k: nat)
    requires best < i <= |xs|
    requires forall j :: 0 <= j < i ==> Count(w, xs[j]) <= Count(w, xs[best])
    requires forall j :: 0 <= j < best ==> Count(w, xs[j]) < Count(w, xs[best])
    ensures k < |xs|
    ensures forall j :: 0 <= j < |xs| ==> Count(w, xs[j]) <= Count(w, xs[k])
    ensures forall j :: 0 <= j < k ==> Count(w, xs[j]) < Count(w, xs[k])
    decreases |xs| - i
  {
    if i == |xs| then best
    else if Count(w, xs[i]) > Count(w, xs[best]) then MaxByCount(xs, w, i, i + 1)
    else MaxByCount(xs, w, best, i + 1)
  }

  /** The stabilized label: "neutral" for an empty window, otherwise the first label,
      in the set iteration order `order`, whose count in the window is maximal. */
  function Get(s: Smoother, order: seq<Label>): (r: Label)
    requires IsEnumeration(order, s.window)
    ensures |s.window| == 0 ==> r == Neutral
    ensures |s.window| > 0 ==> IsMostFrequent(r, s.window)
    ensures |s.window| > 0 ==> exists k :: 0 <= k < |order| && order[k] == r && forall j :: 0 <= j < k ==> Count(s.window, order[j]) < Count(s.window, r)
  {
    if |s.window| == 0 then Neutral
    else
      assert s.window[0] in order;
      var k := MaxByCount(order, s.window, 0, 1);
      order[k]
  }

  /** A label whose count beats every other label's is chosen whatever the set order. */
  lemma UniqueMaximumWins(s: Smoother, order: seq<Label>, x: Label)
    requires IsEnumeration(order, s.window)
    requires x in s.window
    requires forall y :: y in s.window && y != x ==> Count(s.window, y) < Count(s.window, x)
    ensures Get(s, order) == x
  {
    var r := Get(s, order);
    assert Count(s.window, x) <= Count(s.window, r);
  }

  /** A window holding one label only yields that label. */
  lemma UniformWindow(s: Smoother, order: seq<Label>, x: Label)
    requires IsEnumeration(order, s.window)
    requires |s.window| > 0
    requires forall i :: 0 <= i < |s.window| ==> s.window[i] == x
    ensures Get(s, order) == x
  {
    var r := Get(s, order);
    assert r in s.window;
  }

  /** On a tie the winner depends on the set iteration order: with two `a`, two `b` and
      one `c` in the window (say happy, happy, sad, sad, neutral), either tied label can
      be reported. */
  lemma TieFollowsSetOrder(a: Label, b: Label, c: Label)
    requires a != b && b != c && a != c
    ensures Get(Smoother(5, [a, a, b, b, c]), [a, b, c]) == a
    ensures Get(Smoother(5, [a, a, b, b, c]), [b, a, c]) == b
  {
    var w := [a, a, b, b, c];
    assert multiset(w) == multiset{a, a, b, b, c};
    assert Count(w, a) == 2 && Count(w, b) == 2 && Count(w, c) == 1;
    var r1 := Get(Smoother(5, w), [a, b, c]);
    assert r1 == a || r1 == b || r1 == c;
    var r2 := Get(Smoother(5, w), [b, a, c]);
    assert r2 == a || r2 == b || r2 == c;
  }

  lemma WindowAfterSwitch(n: nat, k: nat, a: Label, b: Label)
    requires k <= n
    ensures Feed(New(n), Repeat(a, n) + Repeat(b, k)).window == Repeat(a, n - k) + Repeat(b, k)
  {
    var q := Repeat(a, n) + Repeat(b, k);
    FreshFeed(n, q);
    assert LastN(q, n) == q[k..];
    assert q[k..] == Repeat(a, n - k) + Repeat(b, k);
  }

  /** A filter that has seen `n` copies of `a` and then `k` copies of a different label `b`
      keeps reporting `a` while `a` is still the strict majority of the window, and
      switches to `b` as soon as `b` is. */
  lemma {:induction false} MajoritySwitch(n: nat, k: nat, a: Label, b: Label, order: seq<Label>)
    requires a != b && k <= n
    requires IsEnumeration(order, Feed(New(n), Repeat(a, n) + Repeat(b, k)).window)
    ensures 2 * k < n ==> Get(Feed(New(n), Repeat(a, n) + Repeat(b, k)), order) == a
    ensures 2 * k > n ==> Get(Feed(New(n), Repeat(a, n) + Repeat(b, k)), order) == b
  {
    var s := Feed(New(n), Repeat(a, n) + Repeat(b, k));
    WindowAfterSwitch(n, k, a, b);
    var w := Repeat(a, n - k) + Repeat(b, k);
    assert s.window == w;
    assert multiset(w) == multiset(Repeat(a, n - k)) + multiset(Repeat(b, k));
    CountRepeat(a, a, n - k);
    CountRepeat(a, b, n - k);
    CountRepeat(b, a, k);
    CountRepeat(b, b, k);
    assert Count(w, a) == n - k && Count(w, b) == k;
    forall y | y in w
      ensures y == a || y == b
    {
      var i :| 0 <= i < |w| && w[i] == y;
      if i < n - k { assert w[i] == Repeat(a, n - k)[i]; } else { assert w[i] == Repeat(b, k)[i - (n - k)]; }
    }
    if 2 * k < n {
      assert a in w by { assert w[0] == a; }
      UniqueMaximumWins(s, order, a);
    }
    if 2 * k > n {
      assert b in w by { assert w[|w| - 1] == b; }
      UniqueMaximumWins(s, order, b);
    }
  }
}
