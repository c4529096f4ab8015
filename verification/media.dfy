/** The media reference table: per emotion, three link channels and one fallback link. */
module Media {
  import opened Labels

  /** One entry of the media table: songs, poetry and novels pools plus a single "alt" link. */
  datatype Bundle = Bundle(songs: seq<string>, poetry: seq<string>, novels: seq<string>, alt: string)

  /** The three categories that the table declares explicitly (main.py:115-134). */
  const DeclaredMedia: map<Label, Bundle> := map[
    "happy" := Bundle(
      ["https://www.youtube.com/results?search_query=happy+music", "https://www.youtube.com/results?search_query=uplifting+songs", "https://www.youtube.com/results?search_query=joyful+beats"],
      ["https://www.youtube.com/results?search_query=inspiring+poetry", "https://www.youtube.com/results?search_query=celebration+poetry", "https://www.youtube.com/results?search_query=uplifting+shayari"],
      ["https://www.youtube.com/results?search_query=The+Alchemist+summary", "https://www.youtube.com/results?search_query=The+Rosie+Project+summary", "https://www.youtube.com/results?search_query=feel+good+books"],
      "https://www.youtube.com/results?search_query=high+energy+mix"),
    "sad" := Bundle(
      ["https://www.youtube.com/results?search_query=Talha+Anjum+sad", "https://www.youtube.com/results?search_query=healing+music", "https://www.youtube.com/results?search_query=deep+melancholy"],
      ["https://www.youtube.com/results?search_query=Jaun+Elia+sad", "https://www.youtube.com/results?search_query=healing+poetry", "https://www.youtube.com/results?search_query=comforting+verses"],
      ["https://www.youtube.com/results?search_query=Peer+e+Kamil+summary", "https://www.youtube.com/results?search_query=Milan+Kundera+summary", "https://www.youtube.com/results?search_query=books+for+healing"],
      "https://www.youtube.com/results?search_query=emotional+processing+music"),
    "angry" := Bundle(
      ["https://www.youtube.com/results?search_query=Sidhu+Moose+Wala+intense", "https://www.youtube.com/results?search_query=metal+release", "https://www.youtube.com/results?search_query=high+tempo+workout"],
      ["https://www.youtube.com/results?search_query=stoic+poetry", "https://www.youtube.com/results?search_query=anger+management+verses", "https://www.youtube.com/results?search_query=calm+poetry"],
      ["https://www.youtube.com/results?search_query=The+Power+of+Now+summary", "https://www.youtube.com/results?search_query=Crawdads+Sing+summary", "https://www.youtube.com/results?search_query=resilience+books"],
      "https://www.youtube.com/results?search_query=intense+release+playlist")
  ]

  /** The bundle given to every category the table does not declare (main.py:138). */
  const DefaultBundle: Bundle := Bundle(
    ["https://www.youtube.com/results?search_query=focus+music"], ["https://www.youtube.com/results?search_query=peaceful+poetry"], ["https://www.youtube.com/results?search_query=mindfulness+books"], "https://www.youtube.com/results?search_query=lofi+beats")

  /** The categories the start-up loop fills in when missing (main.py:136). */
  const FilledKeys: seq<Label> := ["fear", "surprise", "neutral"]

  /** The start-up loop: every listed key that is still missing gets the default bundle;
      keys already present keep their own bundle. */
  function FillDefaults(m: map<Label, Bundle>, keys: seq<Label>): (r: map<Label, Bundle>)
    ensures r.Keys == m.Keys + set k | k in keys
    ensures forall k :: k in m ==> r[k] == m[k]
    ensures forall k :: k in r && k !in m ==> r[k] == DefaultBundle
  {
    map k | k in m.Keys + (set k | k in keys) :: if k in m then m[k] else DefaultBundle
  }

  /** The media table as the program sees it after start-up. */
  const MediaCycles: map<Label, Bundle> := FillDefaults(DeclaredMedia, FilledKeys)

  /** After the default fill every emotion category has a media entry, and nothing else does. */
  lemma MediaCoversEmotions()
    ensures MediaCycles.Keys == Emotions
    ensures forall e :: e in DeclaredMedia ==> MediaCycles[e] == DeclaredMedia[e]
    ensures forall e :: e in FilledKeys ==> MediaCycles[e] == DefaultBundle
  {
    DeclaredKeys();
    FilledKeySet();
  }

  lemma DeclaredKeys()
    ensures DeclaredMedia.Keys == {"happy", "sad", "angry"}
  {
  }

  lemma FilledKeySet()
    ensures (set k | k in FilledKeys) == {"fear", "surprise", "neutral"}
  {
  }

  /** The filled categories have one-link pools, so a rotation position of 1 or 2 does not
      name a link in them: the cycle position is a counter, not a pool index. */
  lemma DefaultPoolsAreSingletons()
    ensures forall e :: e in FilledKeys ==>
              |MediaCycles[e].songs| == 1 && |MediaCycles[e].poetry| == 1 && |MediaCycles[e].novels| == 1
    ensures exists e :: e in Emotions && |MediaCycles[e].songs| < 3
  {
    MediaCoversEmotions();
    assert "fear" in FilledKeys;
  }
}
