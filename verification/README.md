# Emotion smoothing and media cycling, in Dafny

This project models the logic core of a desktop emotion tracker. The tracker captures webcam frames and asks an external face-analysis library for each frame's dominant emotion. The core then turns that noisy stream of raw labels into a stable label, picks media for it and keeps a session log. The core has three parts:

- **`EmotionSmoother`**: a sliding window of the last 5 raw labels. It reports the most frequent label in the window, or `"neutral"` while the window is empty (module `Smoothing`, `smoother.dfy`).
- **`MediaCycleManager`**: one round-robin position (0, 1, 2) per emotion category, plus a global streak that counts consecutive requests for the same category. Each request returns the category's media bundle, the position read before advancing, and the streak (module `MediaCycle`, `cycle.dfy`). The media table and its start-up default fill are in module `Media` (`media.dfy`).
- **The session log**: a list of at most 500 detections, newest first. Notes are attached by timestamp, and the log can be cleared (module `SessionLog`, `session_log.dfy`).

Module `Tracker` (`tracker.dfy`) models one detection step: a raw label goes into the smoother, the stabilized label goes to the selector, and the result goes into the log. Module `Labels` (`labels.dfy`) holds the label type, the set of known categories and `Count` (the window's `deque.count`).

Everything is functional. The state is immutable datatypes, and every operation is a pure function that returns the new state.

Python's `max(set(window), key=window.count)` returns the first label of maximal count in the set's iteration order. Python does not specify that order, because string hashing is randomised per process. So the order is a parameter, `order`, in `Smoothing.Get` and `Tracker.Detect`. It must list the window's distinct labels exactly once each. The model is exact for every such order and fixes none of them. `TieFollowsSetOrder` shows that two orders can pick two different winners.

A request for a category the tables do not know raises `KeyError` in the source. The model returns this as the outcome `KeyError(next)` rather than as a precondition. The source has already moved the streak and the last category when the error is raised, and `next` carries exactly that state.

Python's `%` floors. For the positive divisor 3 it agrees with Dafny's Euclidean `%`, so `(idx + 1) % 3` is written as it stands.

One plausible reading of the smoother is that a dominant label survives "until the window is fully displaced". The code does not do that. A new label takes over as soon as it holds a strict majority of the window (`MajoritySwitch`: with a window of 5, three new labels are enough). The model follows the code.

## Model

| member | source | states |
|---|---|---|
| Smoothing.New | main.py:154-155 | a new smoother has the given capacity and an empty, well-formed window |
| Smoothing.Add | main.py:156 | the window never exceeds its capacity; below capacity the label is appended; at capacity the oldest label is dropped and the new one is appended; for a positive capacity the newest label is always last |
| Smoothing.FeedKeepsNewest | main.py:154-156 | after any stream of adds, the window is exactly the newest `size` labels of everything seen, in arrival order, and stays within capacity |
| Smoothing.FreshFeed | main.py:154-156 | a fresh smoother fed any stream holds at most `size` labels: the stream's last `size`, in order |
| Smoothing.MaxByCount | main.py:159 | Python's `max(..., key=count)` scan returns a position whose count is maximal, and no earlier position has an equal count (first maximum wins) |
| Smoothing.Get | main.py:157-159 | an empty window gives "neutral"; otherwise the result occurs in the window, no label in the window occurs more often, and it is the first label of maximal count in the set order |
| Smoothing.UniqueMaximumWins | main.py:159 | a label that occurs strictly more often than every other label is reported, whatever the set order |
| Smoothing.UniformWindow | main.py:159 | a non-empty window of one repeated label reports that label |
| Smoothing.TieFollowsSetOrder | main.py:159 | for any three distinct labels, on the window a, a, b, b, c (happy, happy, sad, sad, neutral, say) one set order gives a and another gives b, so the winner of a tie is not fixed |
| Smoothing.MajoritySwitch | main.py:154-159 | a fresh filter of size n, fed n copies of a and then k <= n copies of a different b, reports a while 2k < n and b once 2k > n |
| Media.FillDefaults | main.py:136-138 | the start-up fill adds exactly the listed keys that are missing, each with the default bundle, and keeps every existing entry |
| Media.MediaCoversEmotions | main.py:115-138 | after the fill, the media table's keys are exactly the six emotion categories; happy, sad and angry keep their declared bundles, and fear, surprise and neutral get the default |
| Media.DefaultPoolsAreSingletons | main.py:136-138 | the filled categories have one-link songs, poetry and novels pools, so a rotation position is not always a valid pool index |
| MediaCycle.Init | main.py:162-165 | a fresh selector is well-formed: every known category is at position 0, with no last category and a streak of 0 |
| MediaCycle.GetMedia | main.py:166-171 | afterwards the last category is the requested one; the streak is the previous streak + 1 on a repeat and 1 otherwise; the call succeeds exactly when the category has a counter and media; on success it returns the category's bundle, the position before the call and the new streak; the requested counter becomes (position + 1) mod 3 and every other counter is unchanged |
| MediaCycle.GetMediaOnValid | main.py:166-171 | on a well-formed selector a request succeeds exactly for the six known categories, the returned position lies in 0..2, the streak is at least 1, and the selector stays well-formed |
| MediaCycle.StepCounters | main.py:169-170 | one request advances only the requested category's counter, by one step of the 3-rotation |
| MediaCycle.StreakIsTrailingRun | main.py:166-168 | from a fresh selector, the streak after any sequence of requests is the length of the final block of equal requests, and the last category is the last request |
| MediaCycle.CounterCountsCalls | main.py:162-170 | from a fresh selector, each known category's counter is the number of requests for it so far, mod 3 |
| MediaCycle.ServedIndex | main.py:169-171 | the k-th request for a known category succeeds and returns the number of earlier requests for that category, mod 3 |
| MediaCycle.FourRepeatedCalls | main.py:163-171 | four requests for the same known category (happy, say) on a fresh selector return positions 0, 1, 2, 0 with streaks 1, 2, 3, 4 |
| MediaCycle.SwitchBackCalls | main.py:163-171 | requests e, f, e for two different known categories (happy, sad, happy, say) on a fresh selector give streaks 1, 1, 1, and the second request for e returns position 1 |
| MediaCycle.UnknownCategoryStillMovesStreak | main.py:166-169 | a request for any label outside the six categories fails, yet the last category has already become that label; the counters are untouched; the next request for a known category starts its streak at 1 |
| SessionLog.Prepend | main.py:695 | the new entry goes first; the log never exceeds 500 entries; below capacity the old log follows unchanged; at capacity the oldest entry is dropped |
| SessionLog.PrependAllKeepsNewest | main.py:695 | after any series of detections, the log is the newest entries (newest first) followed by as much of the earlier log as still fits, and at most 500 entries in all |
| SessionLog.AttachComment | main.py:720-723 | only the first entry with the given time gets the note; entries with other times, and later entries with the same time, are unchanged; the length is unchanged |
| SessionLog.AddComment | main.py:713-723 | a cancelled or empty answer changes nothing; a non-empty answer is attached exactly as `AttachComment` attaches it, to the first entry with the selected time; no entry's time, label or media changes, and the length is kept |
| SessionLog.AttachToMissingTime | main.py:720-723 | a time that no entry carries leaves the log unchanged |
| SessionLog.AttachIdempotent | main.py:720-723 | attaching the same note twice gives the same log as attaching it once |
| SessionLog.Clear | main.py:728 | clearing leaves the log empty |
| Tracker.Start | main.py:190-193 | the start-up state is well-formed: a new size-5 smoother, a fresh selector (so the whole-session selector lemmas apply to it), an empty log and the current label "neutral" |
| Tracker.ProcessResult | main.py:681-695 | the current label and the streak always move to the new label; the log gets a new front entry (time, label, that label's media, empty note) only when the selector succeeds |
| Tracker.Detect | main.py:659-661 | the raw label enters the window, the processed label is a most frequent label of the updated window, and that label then goes through `ProcessResult` (selector always advances; log grows only when the selector succeeds) |
| Tracker.DetectPreservesValid | main.py:659-695 | a detection keeps the window within 5, the counters in 0..2, the log within 500, and every log entry a known category with that category's media |
| Tracker.KnownLabelsAreLogged | main.py:659-695 | when the window and the raw label hold only known categories, the detection is logged: the newest entry is the stabilized label with its media |
| Tracker.CommentAndClearPreserveValid | main.py:720-728 | adding a note and clearing the log keep the state well-formed |

## Left out

- Widget construction, styling and popups (main.py:204-590, main.py:739-907) and the theme constants (main.py:33-53) are pure UI.
- The Treeview rows are left out. The model keeps only the log list, and the tree row's time is a parameter of `AddComment`. The "select a row first" guard (main.py:704-706) and the clear-log confirmation (main.py:726) are dialogs; `Clear` models the confirmed case.
- Webcam capture and the face-analysis library calls, including the retinaface-to-opencv fallback (main.py:603-679), are opaque library calls over images. The raw label they produce is a parameter of `Detect`.
- The daemon threads and the `after` scheduling (main.py:614, main.py:634, main.py:661, main.py:698) are left out. The model runs one detection at a time, in call order.
- Text-to-speech, opening web links, snapshots and CSV export (main.py:697-698, main.py:730-737, main.py:741-753) are I/O.
- The class-level face rectangle (main.py:178, main.py:658) is shared display state.
- The wall clock is a parameter: `time` is the "HH:MM:SS" string that the source formats at main.py:693.
- The emotion-data lookup with its neutral fallback (main.py:683) only feeds display text. The steps and colours in the emotion table and the link texts are reference data; only their key sets matter. The link strings are copied as written.
- Python's set iteration order is not modelled. It is the `order` parameter, as described above.
- The returned position and streak are shown in a label (main.py:690). That text is UI.
