/** The per-emotion round-robin media selector with its global same-emotion streak. */
module MediaCycle {
  import opened Labels
  import opened Media

  /** Rotation length of every category's counter (main.py:170). */
  const CycleLength: int := 3

  /** Selector state: next position per known category, the last category served, and
      how many consecutive calls have asked for it. */
  datatype Manager = Manager(counters: map<Label, int>, lastEmo: Option<Label>, streak: int)
  {
    /** The counters cover exactly the known categories and stay in 0..2; the streak is
        zero exactly while nothing has been served yet. */
    predicate Valid() {
      && counters.Keys == Emotions
      && (forall e :: e in counters ==> 0 <= counters[e] < CycleLength)
      && streak >= 0
      && (lastEmo.None? <==> streak == 0)
    }
  }

  /** What a selection call produces. `KeyError` is the call on a category the tables do
      not know; the streak and last category have already changed by then. */
  datatype Outcome =
    | Served(next: Manager, media: Bundle, index: int, servedStreak: int)
    | KeyError(next: Manager)

  /** A fresh selector: every known category at position 0, no streak (main.py:163-165). */
  function Init(): (m: Manager)
    ensures m.Valid()
    ensures forall e :: e in Emotions ==> m.counters[e] == 0
    ensures m.lastEmo == None && m.streak == 0
  {
    Manager(map e | e in Emotions :: 0, None, 0)
  }

  /** One selection: update the streak, read and advance the category's counter, and
      hand back its media bundle (main.py:166-171). */
  function GetMedia(m: Manager, emo: Label): (r: Outcome)
    ensures r.next.lastEmo == Some(emo)
    ensures r.next.streak == if m.lastEmo == Some(emo) then m.streak + 1 else 1
    ensures r.Served? <==> emo in m.counters && emo in MediaCycles
    ensures r.Served? ==> r.servedStreak == r.next.streak && r.media == MediaCycles[emo]
    ensures r.Served? ==> r.index == m.counters[emo]
    ensures r.Served? ==> r.next.counters.Keys == m.counters.Keys
    ensures r.Served? ==> r.next.counters[emo] == (r.index + 1) % CycleLength
    ensures forall e :: e in m.counters && e != emo ==> e in r.next.counters && r.next.counters[e] == m.counters[e]
  {
    var streak := if m.lastEmo == Some(emo) then m.streak + 1 else 1;
    var m1 := m.(lastEmo := Some(emo), streak := streak);
    if emo !in m.counters then KeyError(m1)
    else
      var idx := m.counters[emo];
      var m2 := m1.(counters := m.counters[emo := (idx + 1) % CycleLength]);
      if emo !in MediaCycles then KeyError(m2)
      else Served(m2, MediaCycles[emo], idx, streak)
  }

  /** On a well-formed selector, a call succeeds exactly for the known categories, keeps
      the selector well-formed, and returns a position in 0..2 and a streak of at least 1. */
  lemma GetMediaOnValid(m: Manager, emo: Label)
    requires m.Valid()
    ensures GetMedia(m, emo).next.Valid()
    ensures GetMedia(m, emo).Served? <==> emo in Emotions
    ensures GetMedia(m, emo).Served? ==> 0 <= GetMedia(m, emo).index < CycleLength
    ensures GetMedia(m, emo).next.streak >= 1
  {
    MediaCoversEmotions();
  }

  /** The selector after a sequence of calls, earliest first (failed calls included:
      they still move the streak). */
  function Run(m: Manager, emos: seq<Label>): Manager
    decreases |emos|
  {
    if |emos| == 0 then m
    else GetMedia(Run(m, emos[..|emos| - 1]), emos[|emos| - 1]).next
  }

  /** `k` is the length of the block of equal labels that ends `emos`. */
  predicate IsTrailingRun(emos: seq<Label>, k: int) {
    && |emos| > 0
    && 1 <= k <= |emos|
    && (forall i :: |emos| - k <= i < |emos| ==> emos[i] == emos[|emos| - 1])
    && (k == |emos| || emos[|emos| - k - 1] != emos[|emos| - 1])
  }

  /** Streak rule over a whole session: starting fresh, the streak is the number of
      consecutive most recent calls that asked for the same category as the last one. */
  lemma {:induction false} StreakIsTrailingRun(emos: seq<Label>)
    requires |emos| > 0
    ensures Run(Init(), emos).lastEmo == Some(emos[|emos| - 1])
    ensures IsTrailingRun(emos, Run(Init(), emos).streak)
    decreases |emos|
  {
    var p := emos[..|emos| - 1];
    var x := emos[|emos| - 1];
    if |p| > 0 {
      StreakIsTrailingRun(p);
      var k := Run(Init(), p).streak;
      assert forall i :: 0 <= i < |p| ==> p[i] == emos[i];
      if p[|p| - 1] == x {
        assert IsTrailingRun(emos, k + 1);
      } else {
        assert IsTrailingRun(emos, 1);
      }
    }
  }

  /** Index rule over a whole session: starting fresh, a known category's counter is the
      number of calls that asked for it, modulo 3; calls for other categories leave it alone. */
  lemma {:induction false} CounterCountsCalls(emos: seq<Label>)
    ensures Run(Init(), emos).counters.Keys == Emotions
    ensures forall e :: e in Emotions ==> Run(Init(), emos).counters[e] == Count(emos, e) % CycleLength
    decreases |emos|
  {
    if |emos| > 0 {
      var p := emos[..|emos| - 1];
      var x := emos[|emos| - 1];
      CounterCountsCalls(p);
      var m := Run(Init(), p);
      assert Run(Init(), emos) == GetMedia(m, x).next;
      assert emos == p + [x];
      StepCounters(m, x);
      forall e | e in Emotions
        ensures GetMedia(m, x).next.counters[e] == Count(emos, e) % CycleLength
      {
        CounterAfterCall(m, p, x, e);
      }
    }
  }

  /** If a counter holds the number of earlier requests for its category mod 3, it still
      does after one more request. */
  lemma CounterAfterCall(m: Manager, p: seq<Label>, x: Label, e: Label)
    requires m.counters.Keys == Emotions && e in Emotions
    requires m.counters[e] == Count(p, e) % CycleLength
    ensures GetMedia(m, x).next.counters[e] == Count(p + [x], e) % CycleLength
  {
    StepCounters(m, x);
    assert multiset(p + [x]) == multiset(p) + multiset{x};
    if e == x {
      var n := Count(p, x);
      assert Count(p + [x], x) == n + 1;
      ModSucc(n);
    } else {
      assert Count(p + [x], e) == Count(p, e);
    }
  }

  /** One call advances only the requested counter, by one step of the rotation. */
  lemma StepCounters(m: Manager, x: Label)
    requires m.counters.Keys == Emotions
    ensures GetMedia(m, x).next.counters.Keys == Emotions
    ensures x in Emotions ==> GetMedia(m, x).next.counters[x] == (m.counters[x] + 1) % CycleLength
    ensures forall e :: e in Emotions && e != x ==> GetMedia(m, x).next.counters[e] == m.counters[e]
  {
    MediaCoversEmotions();
  }

  lemma ModSucc(n: nat)
    ensures (n % CycleLength + 1) % CycleLength == (n + 1) % CycleLength
  {
  }

  /** The position served by the `k`-th call of a fresh session is the number of earlier
      calls for the same category, modulo 3. */
  lemma ServedIndex(emos: seq<Label>, k: nat)
    requires k < |emos| && emos[k] in Emotions
    ensures GetMedia(Run(Init(), emos[..k]), emos[k]).Served?
    ensures GetMedia(Run(Init(), emos[..k]), emos[k]).index == Count(emos[..k], emos[k]) % CycleLength
  {
    CounterCountsCalls(emos[..k]);
    MediaCoversEmotions();
  }

  /** Four calls for the same known category (say "happy") on a fresh selector serve
      positions 0, 1, 2, 0 with streaks 1, 2, 3, 4. */
  lemma FourRepeatedCalls(e: Label)
    requires e in Emotions
    ensures var r1 := GetMedia(Init(), e);
            var r2 := GetMedia(r1.next, e);
            var r3 := GetMedia(r2.next, e);
            var r4 := GetMedia(r3.next, e);
            && r1.Served? && r2.Served? && r3.Served? && r4.Served?
            && r1.index == 0 && r2.index == 1 && r3.index == 2 && r4.index == 0
            && r1.servedStreak == 1 && r2.servedStreak == 2 && r3.servedStreak == 3 && r4.servedStreak == 4
  {
    MediaCoversEmotions();
    var r1 := GetMedia(Init(), e);
    assert r1.Served? && r1.index == 0 && r1.next.counters[e] == 1 && r1.next.streak == 1;
    var r2 := GetMedia(r1.next, e);
    assert r2.Served? && r2.index == 1 && r2.next.counters[e] == 2 && r2.next.streak == 2;
    var r3 := GetMedia(r2.next, e);
    assert r3.Served? && r3.index == 2 && r3.next.counters[e] == 0 && r3.next.streak == 3;
    var r4 := GetMedia(r3.next, e);
    assert r4.Served? && r4.index == 0 && r4.servedStreak == 4;
  }

  /** Two different known categories e, f, e (say happy, sad, happy): every switch restarts
      the streak, and `e` resumes its own rotation at position 1. */
  lemma SwitchBackCalls(e: Label, f: Label)
    requires e in Emotions && f in Emotions && e != f
    ensures var r1 := GetMedia(Init(), e);
            var r2 := GetMedia(r1.next, f);
            var r3 := GetMedia(r2.next, e);
            && r1.Served? && r2.Served? && r3.Served?
            && r1.servedStreak == 1 && r2.servedStreak == 1 && r3.servedStreak == 1
            && r1.index == 0 && r2.index == 0 && r3.index == 1
  {
    MediaCoversEmotions();
    var r1 := GetMedia(Init(), e);
    assert r1.Served? && r1.index == 0 && r1.next.counters[e] == 1 && r1.next.streak == 1;
    var r2 := GetMedia(r1.next, f);
    assert r2.Served? && r2.index == 0 && r2.next.counters[e] == 1 && r2.next.streak == 1;
    var r3 := GetMedia(r2.next, e);
    assert r3.Served? && r3.index == 1 && r3.servedStreak == 1;
  }

  /** A call for any category the tables do not know (for example "disgust") fails, yet it
      has already moved the streak: the next call for a known category starts a new streak
      at 1, even if that category was the one served before. */
  lemma UnknownCategoryStillMovesStreak(m: Manager, u: Label, e: Label)
    requires m.Valid() && u !in Emotions && e in Emotions
    ensures GetMedia(m, u).KeyError?
    ensures GetMedia(m, u).next.lastEmo == Some(u)
    ensures GetMedia(m, u).next.counters == m.counters
    ensures GetMedia(GetMedia(m, u).next, e).next.streak == 1
  {
  }
}
