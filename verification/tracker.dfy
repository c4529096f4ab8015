/** The application's detection step: smooth the raw label, select media, log the result. */
module Tracker {
  import opened Labels
  import opened Media
  import opened Smoothing
  import opened MediaCycle
  import opened SessionLog

  /** The core state the application owns (main.py:190-193). */
  datatype App = App(smoother: Smoother, manager: Manager, log: Log, current: Label)
  {
    /** Window within the default size, selector well-formed, log bounded and consistent. */
    ghost predicate Valid() {
      && smoother.Valid()
      && smoother.size == DefaultSize
      && manager.Valid()
      && |log| <= Capacity
      && LogConsistent(log)
    }
  }

  /** Every logged entry names a known category and carries that category's media. */
  ghost predicate LogConsistent(log: Log) {
    forall i :: 0 <= i < |log| ==> log[i].emo in Emotions && log[i].media == MediaCycles[log[i].emo]
  }


  /** The state right after start-up (main.py:190-193). */
  function Start(): (app: App)
    ensures app.Valid()
    ensures app.smoother == New(DefaultSize) && app.manager == Init()
    ensures |app.smoother.window| == 0 && |app.log| == 0 && app.current == Neutral
  {
    App(New(DefaultSize), Init(), [], Neutral)
  }

  /** Handle one stabilized label at wall-clock `time` (main.py:681-695). The selector is
      asked before the entry is logged, so an unknown category leaves the log as it was,
      although the current label and the streak have already moved. */
  function ProcessResult(app: App, emo: Label, time: string): (r: App)
    ensures r.current == emo && r.smoother == app.smoother
    ensures r.manager == GetMedia(app.manager, emo).next
    ensures GetMedia(app.manager, emo).Served? ==>
              r.log == Prepend(app.log, Entry(time, emo, MediaCycles[emo], ""))
    ensures GetMedia(app.manager, emo).KeyError? ==> r.log == app.log
  {
    var app1 := app.(current := emo);
    match GetMedia(app.manager, emo)
    case KeyError(m) => app1.(manager := m)
    case Served(m, media, _, _) =>
      app1.(manager := m, log := Prepend(app.log, Entry(time, emo, media, "")))
  }

  /** One analysis cycle: the raw label `dom` enters the window, the window's most frequent
      label (first in the set order `order` among ties) is processed (main.py:659-661). */
  function Detect(app: App, dom: Label, order: seq<Label>, time: string): (r: App)
    requires IsEnumeration(order, Add(app.smoother, dom).window)
    ensures r.smoother == Add(app.smoother, dom)
    ensures r.current == Get(r.smoother, order)
    ensures r == ProcessResult(app.(smoother := Add(app.smoother, dom)), r.current, time)
    ensures app.smoother.size > 0 ==> IsMostFrequent(r.current, r.smoother.window)
  {
    var s := Add(app.smoother, dom);
    ProcessResult(app.(smoother := s), Get(s, order), time)
  }

  /** A detection keeps the state well-formed: window within its size, counters in range,
      log within capacity and every logged entry consistent with the media table. */
  lemma DetectPreservesValid(app: App, dom: Label, order: seq<Label>, time: string)
    requires app.Valid()
    requires IsEnumeration(order, Add(app.smoother, dom).window)
    ensures Detect(app, dom, order, time).Valid()
  {
    var s := Add(app.smoother, dom);
    var emo := Get(s, order);
    GetMediaOnValid(app.manager, emo);
    var r := Detect(app, dom, order, time);
    if GetMedia(app.manager, emo).Served? {
      var e := Entry(time, emo, MediaCycles[emo], "");
      var log' := Prepend(app.log, e);
      forall i | 0 <= i < |log'|
        ensures log'[i].emo in Emotions && log'[i].media == MediaCycles[log'[i].emo]
      {
        if i > 0 { assert log'[i] == app.log[i - 1]; }
      }
    }
  }

  /** When the analyser only reports known categories, every detection is logged: the
      newest entry is the stabilized label with its media. */
  lemma KnownLabelsAreLogged(app: App, dom: Label, order: seq<Label>, time: string)
    requires app.Valid()
    requires dom in Emotions
    requires forall i :: 0 <= i < |app.smoother.window| ==> app.smoother.window[i] in Emotions
    requires IsEnumeration(order, Add(app.smoother, dom).window)
    ensures var r := Detect(app, dom, order, time);
            && |r.log| > 0 && r.log[0] == Entry(time, r.current, MediaCycles[r.current], "")
            && r.current in Emotions
  {
    var s := Add(app.smoother, dom);
    var emo := Get(s, order);
    assert forall i :: 0 <= i < |s.window| ==> s.window[i] in Emotions by {
      forall i | 0 <= i < |s.window|
        ensures s.window[i] in Emotions
      {
        if i == |s.window| - 1 {
        } else if |app.smoother.window| < app.smoother.size {
          assert s.window[i] == app.smoother.window[i];
        } else {
          assert s.window[i] == app.smoother.window[i + 1];
        }
      }
    }
    assert emo in s.window;
    GetMediaOnValid(app.manager, emo);
  }

  /** Adding a comment and clearing the log keep the log consistent and bounded. */
  lemma CommentAndClearPreserveValid(app: App, time: string, answer: Option<string>)
    requires app.Valid()
    ensures app.(log := AddComment(app.log, time, answer)).Valid()
    ensures app.(log := Clear(app.log)).Valid()
  {
  }
}
