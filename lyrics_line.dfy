/** The lyric line shared by the aligner, the lyrics service and the player
    window.  TimeSpan is an integer number of milliseconds. */
module Lyrics {
  datatype LyricsLine = LyricsLine(timestamp: int, text: string, isScream: bool)

  /** The timestamps of a list of lines. */
  function Timestamps(ls: seq<LyricsLine>): (ts: seq<int>)
    ensures |ts| == |ls| && forall i :: 0 <= i < |ls| ==> ts[i] == ls[i].timestamp
  {
    seq(|ls|, i requires 0 <= i < |ls| => ls[i].timestamp)
  }

  function Texts(ls: seq<LyricsLine>): (ts: seq<string>)
    ensures |ts| == |ls| && forall i :: 0 <= i < |ls| ==> ts[i] == ls[i].text
  {
    seq(|ls|, i requires 0 <= i < |ls| => ls[i].text)
  }

  /** Lines carrying the given texts, line i at i * stepMs, as built by
      the loops that advance a running TimeSpan by a fixed step. */
  function Timed(texts: seq<string>, stepMs: int): (ls: seq<LyricsLine>)
    ensures Texts(ls) == texts
  {
    seq(|texts|, i requires 0 <= i < |texts| => LyricsLine(i * stepMs, texts[i], false))
  }

  /** A positive step gives strictly increasing timestamps from 0. */
  lemma TimedIncreasing(texts: seq<string>, stepMs: int)
    requires stepMs > 0
    ensures var ls := Timed(texts, stepMs);
      (|ls| > 0 ==> ls[0].timestamp == 0) &&
      forall i, j :: 0 <= i < j < |ls| ==> ls[i].timestamp < ls[j].timestamp
  {
    var ls := Timed(texts, stepMs);
    forall i, j | 0 <= i < j < |ls|
      ensures ls[i].timestamp < ls[j].timestamp
    {
      assert j * stepMs == i * stepMs + (j - i) * stepMs;
    }
  }
}
