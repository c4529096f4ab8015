/** The in-memory session log: newest entry first, bounded, comments attached by timestamp. */
module SessionLog {
  import opened Labels
  import opened Media

  /** Maximum number of entries kept (main.py:192). */
  const Capacity: nat := 500

  /** One detection: wall-clock time as "HH:MM:SS", stabilized label, media bundle and note. */
  datatype Entry = Entry(time: string, emo: Label, media: Bundle, comment: string)

  /** The log as an ordered list, newest entry at index 0. */
  type Log = seq<Entry>

  /** The first `n` elements of `q` (all of `q` when it is shorter). */
  function FirstN(q: Log, n: nat): (r: Log)
    ensures |r| == if |q| <= n then |q| else n
  {
    if |q| <= n then q else q[..n]
  }

  /** `q` reversed. */
  function Reverse(q: Log): (r: Log)
    ensures |r| == |q|
  {
    if |q| == 0 then [] else Reverse(q[1..]) + [q[0]]
  }

  /** Push a new entry at the front of the bounded queue; when the queue is at capacity the
      entry at the far end, the oldest, is dropped (main.py:695). */
  function Prepend(log: Log, e: Entry): (r: Log)
    ensures 0 < |r| <= Capacity
    ensures r[0] == e
    ensures |log| < Capacity ==> r[1..] == log
    ensures |log| >= Capacity ==> r[1..] == log[..Capacity - 1]
  {
    if |log| < Capacity then [e] + log else [e] + log[..Capacity - 1]
  }

  /** Push a series of entries, earliest first. */
  function PrependAll(log: Log, es: seq<Entry>): Log
    decreases |es|
  {
    if |es| == 0 then log else PrependAll(Prepend(log, es[0]), es[1..])
  }

  lemma FirstNAbsorb(p: Log, q: Log, n: nat)
    ensures FirstN(p + FirstN(q, n), n) == FirstN(p + q, n)
  {
    if |q| > n {
      if |p| >= n {
        assert (p + q[..n])[..n] == p[..n] == (p + q)[..n];
      } else {
        assert (p + q[..n])[..n] == (p + q)[..n];
      }
    }
  }

  lemma PrependIsFirstN(log: Log, e: Entry)
    requires |log| <= Capacity
    ensures Prepend(log, e) == FirstN([e] + log, Capacity)
  {
    if |log| == Capacity {
      assert ([e] + log)[..Capacity] == [e] + log[..Capacity - 1];
    }
  }

  /** After any series of detections the log holds the newest `Capacity` of them, newest
      first, followed by as much of the earlier log as still fits. */
  lemma {:induction false} PrependAllKeepsNewest(log: Log, es: seq<Entry>)
    requires |log| <= Capacity
    ensures |PrependAll(log, es)| <= Capacity
    ensures PrependAll(log, es) == FirstN(Reverse(es) + log, Capacity)
    decreases |es|
  {
    if |es| > 0 {
      var log' := Prepend(log, es[0]);
      PrependIsFirstN(log, es[0]);
      PrependAllKeepsNewest(log', es[1..]);
      FirstNAbsorb(Reverse(es[1..]), [es[0]] + log, Capacity);
      ReverseFront(es, log);
    }
  }

  lemma ReverseFront(es: seq<Entry>, log: Log)
    requires |es| > 0
    ensures Reverse(es) + log == Reverse(es[1..]) + ([es[0]] + log)
  {
    var a := Reverse(es[1..]);
    assert Reverse(es) == a + [es[0]];
    SeqAssoc(a, [es[0]], log);
  }

  lemma SeqAssoc(a: Log, b: Log, c: Log)
    ensures (a + b) + c == a + (b + c)
  {
  }

  /** Attach `comment` to the first (newest) entry stamped `time`; every other entry, and
      every later entry with the same stamp, is left as it was (main.py:720-723). */
  function AttachComment(log: Log, time: string, comment: string): (r: Log)
    ensures |r| == |log|
    ensures forall i :: 0 <= i < |log| && log[i].time != time ==> r[i] == log[i]
    ensures forall i, j :: 0 <= j < i < |log| && log[j].time == time ==> r[i] == log[i]
    ensures forall i :: 0 <= i < |log| && log[i].time == time && (forall j :: 0 <= j < i ==> log[j].time != time) ==>
              r[i] == log[i].(comment := comment)
    decreases |log|
  {
    if |log| == 0 then []
    else if log[0].time == time then [log[0].(comment := comment)] + log[1..]
    else
      var rest := AttachComment(log[1..], time, comment);
      var r := [log[0]] + rest;
      assert forall i :: 1 <= i < |log| ==> r[i] == rest[i - 1] && log[i] == log[1..][i - 1];
      r
  }

  /** The comment dialog: a cancelled dialog (`None`) or an empty answer changes nothing;
      otherwise the note goes to the newest entry with the selected row's time (main.py:713-723). */
  function AddComment(log: Log, time: string, answer: Option<string>): (r: Log)
    ensures |r| == |log|
    ensures answer == None || answer == Some("") ==> r == log
    ensures answer.Some? && answer.value != "" ==> r == AttachComment(log, time, answer.value)
    ensures forall i :: 0 <= i < |log| ==> r[i].time == log[i].time && r[i].emo == log[i].emo && r[i].media == log[i].media
  {
    match answer
    case None => log
    case Some(c) => if c == "" then log else AttachComment(log, time, c)
  }

  /** A stamp that no entry carries leaves the log untouched. */
  lemma AttachToMissingTime(log: Log, time: string, comment: string)
    requires forall i :: 0 <= i < |log| ==> log[i].time != time
    ensures AttachComment(log, time, comment) == log
  {
  }

  /** Attaching is idempotent: the second identical note changes nothing more. */
  lemma {:induction false} AttachIdempotent(log: Log, time: string, comment: string)
    ensures AttachComment(AttachComment(log, time, comment), time, comment) == AttachComment(log, time, comment)
    decreases |log|
  {
    if |log| > 0 && log[0].time != time {
      AttachIdempotent(log[1..], time, comment);
      var r := AttachComment(log, time, comment);
      assert r[1..] == AttachComment(log[1..], time, comment);
    }
  }

  /** Clearing the log empties it (main.py:728). */
  function Clear(log: Log): (r: Log)
    ensures |r| == 0
  {
    []
  }
}
