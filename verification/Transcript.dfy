/** The transcript the user sees: one line for each segment, replaced by every revision. */
module Transcript {
  import opened Audio
  import opened MockStt

  const ELLIPSIS := "\U{2026}"

  /** Stable text, then what may still change. */
  function LineOf(u: Update): string {
    if u.mutableText == "" then u.stableText
    else Spaced(u.stableText, u.mutableText) + ELLIPSIS
  }

  /** The text committed so far as it is, and while there is more to come a space, that, and an
      ellipsis. */
  predicate ReadsAs(line: string, u: Update) {
    if u.mutableText == "" then line == u.stableText
    else if u.stableText == "" then line == u.mutableText + "\U{2026}"
    else line == u.stableText + " " + u.mutableText + "\U{2026}"
  }

  lemma LineReads(u: Update)
    ensures ReadsAs(LineOf(u), u)
  {
  }

  /** Both lists as the object keeps them. */
  datatype View = View(ids: seq<string>, lines: seq<string>)

  function IndexOf(ids: seq<string>, id: string): (i: nat)
    ensures i <= |ids| && (i < |ids| ==> ids[i] == id) && forall k :: 0 <= k < i ==> ids[k] != id
  {
    if ids == [] || ids[0] == id then 0 else 1 + IndexOf(ids[1..], id)
  }

  function Applied(v: View, u: Update): (r: View)
    requires |v.ids| == |v.lines|
    ensures |r.ids| == |r.lines|
  {
    var i := IndexOf(v.ids, u.segmentId);
    if i < |v.ids| then v.(lines := v.lines[i := LineOf(u)])
    else View(v.ids + [u.segmentId], v.lines + [LineOf(u)])
  }

  /** The transcript after these updates, oldest first. */
  function Folded(updates: seq<Update>): (r: View)
    ensures |r.ids| == |r.lines|
  {
    if updates == [] then View([], []) else Applied(Folded(updates[..|updates| - 1]), updates[|updates| - 1])
  }

  class TranscriptView {
    var transcriptSegmentIds: seq<string>
    var transcriptLines: seq<string>

    ghost predicate Valid()
      reads this
    {
      |transcriptSegmentIds| == |transcriptLines|
    }

    ghost function Shown(): View
      reads this
    {
      View(transcriptSegmentIds, transcriptLines)
    }

    constructor ()
      ensures Valid() && Shown() == Folded([])
    {
      transcriptSegmentIds, transcriptLines := [], [];
    }

    method ApplyTranscript(update: Update)
      requires Valid()
      modifies this
      ensures Valid() && Shown() == Applied(old(Shown()), update)
    {
      var line := update.stableText;
      if update.mutableText != "" {
        if line != "" {
          line := line + " ";
        }
        line := line + (update.mutableText + ELLIPSIS);
      }
      assert line == LineOf(update);
      for i := 0 to |transcriptSegmentIds|
        invariant forall k :: 0 <= k < i ==> transcriptSegmentIds[k] != update.segmentId
      {
        if transcriptSegmentIds[i] == update.segmentId {
          transcriptLines := transcriptLines[i := line];
          return;
        }
      }
      transcriptSegmentIds := transcriptSegmentIds + [update.segmentId];
      transcriptLines := transcriptLines + [line];
    }
  }

  // ----- What the fold amounts to -------------------------------------------------------

  /** The ids of the updates without repetition, in the order they were first seen. */
  function FirstSeen(updates: seq<Update>): seq<string> {
    if updates == [] then [] else
      var before, id := FirstSeen(updates[..|updates| - 1]), updates[|updates| - 1].segmentId;
      if id in before then before else before + [id]
  }

  /** The last update of a segment. */
  function Newest(updates: seq<Update>, id: string): Option<Update> {
    if updates == [] then None
    else if updates[|updates| - 1].segmentId == id then Some(updates[|updates| - 1])
    else Newest(updates[..|updates| - 1], id)
  }

  ghost predicate ShowsNewest(updates: seq<Update>, v: View) {
    && |v.ids| == |v.lines|
    && v.ids == FirstSeen(updates)
    && (forall i, j :: 0 <= i < j < |v.ids| ==> v.ids[i] != v.ids[j])
    && (forall i :: 0 <= i < |v.ids| ==>
          Newest(updates, v.ids[i]).Some? && ReadsAs(v.lines[i], Newest(updates, v.ids[i]).value))
  }

  /** One line for each segment, in the order the segments were first heard of, always the
      newest revision received. */
  lemma {:induction false} TranscriptShowsNewest(updates: seq<Update>)
    ensures ShowsNewest(updates, Folded(updates))
  {
    if updates == [] {
    } else {
      TranscriptShowsNewest(updates[..|updates| - 1]);
      LineReads(updates[|updates| - 1]);
    }
  }

  lemma {:induction false} SeenMeansUpdated(updates: seq<Update>, id: string)
    ensures id in FirstSeen(updates) <==> exists u :: 0 <= u < |updates| && updates[u].segmentId == id
  {
    if updates == [] {
    } else {
      var init := updates[..|updates| - 1];
      SeenMeansUpdated(init, id);
      if u :| 0 <= u < |init| && init[u].segmentId == id {
        assert updates[u].segmentId == id;
      }
      if u :| 0 <= u < |updates| && updates[u].segmentId == id {
        assert u < |init| ==> init[u].segmentId == id;
      }
    }
  }

  // ----- The transcript of a scripted session -------------------------------------------

  /** The first n updates of a session. */
  function Script(o: Options, n: nat): (updates: seq<Update>)
    ensures |updates| == n
  {
    if n == 0 then [] else Script(o, n - 1) + [UpdateAt(o, n - 1)]
  }

  /** The whole text of a segment, as its final revision commits it. */
  function SegmentText(o: Options, segment: nat): string {
    Words(o.words, o.WordBase(segment), o.Length())
  }

  /** Finished segments show their whole text, the open one the words heard of it so far and an
      ellipsis. */
  predicate ShowsScript(o: Options, v: View, s: MockStt.Script) {
    var open := if s.revision == 0 then 0 else 1;
    && |v.ids| == |v.lines| == s.segment + open
    && (forall k :: 0 <= k < |v.ids| ==> v.ids[k] == SegmentId(k))
    && (forall k :: 0 <= k < s.segment ==> v.lines[k] == SegmentText(o, k))
    && (open == 1 ==> v.lines[s.segment] == Words(o.words, o.WordBase(s.segment), s.revision) + "\U{2026}")
  }

  lemma UpdateFinds(v: View, segment: nat)
    requires segment < ID_LIMIT && |v.ids| <= segment + 1
    requires forall k :: 0 <= k < |v.ids| ==> v.ids[k] == SegmentId(k)
    ensures IndexOf(v.ids, SegmentId(segment)) == if |v.ids| <= segment then |v.ids| else segment
  {
    forall k | 0 <= k < |v.ids| && k != segment ensures v.ids[k] != SegmentId(segment) {
      IdsDiffer(k, segment);
    }
  }

  lemma FinalCommitsAll(o: Options, u: nat)
    requires UpdateAt(o, u).isFinal
    ensures LineOf(UpdateAt(o, u)) == SegmentText(o, ScriptAt(o, u).segment)
  {
    ScriptIsRegular(o, u);
  }

  lemma LineShows(o: Options, v: View, s: MockStt.Script, s': MockStt.Script, u: Update)
    requires ShowsScript(o, v, s) && s.segment < ID_LIMIT && u.segmentId == SegmentId(s.segment)
    requires if u.isFinal then s'.segment == s.segment + 1 && s'.revision == 0 && LineOf(u) == SegmentText(o, s.segment)
             else
               && s'.segment == s.segment && s'.revision == s.revision + 1
               && LineOf(u) == Words(o.words, o.WordBase(s.segment), s'.revision) + ELLIPSIS
    ensures ShowsScript(o, Applied(v, u), s')
  {
    UpdateFinds(v, s.segment);
  }

  /** A revision that is not final reads as the words up to its own and an ellipsis. */
  lemma OpenLineReads(o: Options, u: nat)
    requires !UpdateAt(o, u).isFinal
    ensures var s := ScriptAt(o, u);
      LineOf(UpdateAt(o, u)) == Words(o.words, o.WordBase(s.segment), s.revision + 1) + ELLIPSIS
  {
    var s := ScriptAt(o, u);
    WordsGrow(o.words, o.WordBase(s.segment), s.revision);
  }

  lemma UpdateShows(o: Options, v: View, u: nat)
    requires ShowsScript(o, v, ScriptAt(o, u)) && ScriptAt(o, u).segment < ID_LIMIT
    ensures ShowsScript(o, Applied(v, UpdateAt(o, u)), ScriptAt(o, u + 1))
  {
    if UpdateAt(o, u).isFinal {
      FinalCommitsAll(o, u);
    } else {
      OpenLineReads(o, u);
    }
    LineShows(o, v, ScriptAt(o, u), ScriptAt(o, u + 1), UpdateAt(o, u));
  }

  lemma FoldOneMore(o: Options, n: nat)
    ensures Folded(Script(o, n + 1)) == Applied(Folded(Script(o, n)), UpdateAt(o, n))
  {
    assert Script(o, n + 1)[..n] == Script(o, n);
  }

  lemma ShownOneMore(o: Options, m: nat, n: nat)
    requires n == m + 1 && ScriptAt(o, m).segment < ID_LIMIT
    requires ShowsScript(o, Folded(Script(o, m)), ScriptAt(o, m))
    ensures ShowsScript(o, Folded(Script(o, n)), ScriptAt(o, n))
  {
    FoldOneMore(o, m);
    UpdateShows(o, Folded(Script(o, m)), m);
  }

  lemma NothingIsShown(o: Options)
    ensures ShowsScript(o, Folded(Script(o, 0)), ScriptAt(o, 0))
  {
  }

  /** End to end, for every session whose segments all have ids of their own: the transcript
      has one line for each segment begun, in order; each finished one reads as its final
      revision, and the open one as the words heard of it so far and an ellipsis. */
  lemma {:induction false} ScriptIsShown(o: Options, n: nat)
    requires n > 0 ==> ScriptAt(o, n - 1).segment < ID_LIMIT
    ensures ShowsScript(o, Folded(Script(o, n)), ScriptAt(o, n))
  {
    if n == 0 {
      NothingIsShown(o);
    } else {
      SegmentsOnlyGrow(o, n - 1);
      ScriptIsShown(o, n - 1);
      ShownOneMore(o, n - 1, n);
    }
  }

  /** The server as configured when nothing is said: five frames an update, three updates a
      segment. */
  const DEFAULT := Scripted(5, 3)

  lemma ThreeWords(words: nat -> Word, base: nat)
    ensures Words(words, base, 3) == words(base) + " " + words(base + 1) + " " + words(base + 2)
  {
    assert Words(words, base, 0) == "";
    assert Words(words, base, 1) == words(base);
    assert Words(words, base, 2) == words(base) + " " + words(base + 1);
  }

  /** With three updates a segment, each reads as the next three words of the script. */
  lemma SegmentOfThree(o: Options, segment: nat)
    requires o.revisionsPerSegment == 3
    ensures SegmentText(o, segment)
         == o.words(3 * segment) + " " + o.words(3 * segment + 1) + " " + o.words(3 * segment + 2)
  {
    ThreeWords(o.words, 3 * segment);
    assert o.WordBase(segment) == 3 * segment;
  }

  lemma TwelveIsFourThrees(segment: nat, k: nat)
    requires k < 3
    ensures (3 * segment + k) % 12 == 3 * (segment % 4) + k
  {
    assert 3 * segment + k == 12 * (segment / 4) + (3 * (segment % 4) + k);
  }

  lemma VocabularyRepeats(segment: nat, k: nat)
    requires k < 3
    ensures DEFAULT.words(3 * segment + k) == WORDS[3 * (segment % 4) + k]
  {
    TwelveIsFourThrees(segment, k);
  }

  /** With the server's own vocabulary and defaults, each segment reads as one of four sentences,
      in turn: four segments use up the vocabulary, and the fifth reads like the first. */
  lemma DefaultSegmentsRead(segment: nat)
    ensures var at := 3 * (segment % 4);
      SegmentText(DEFAULT, segment) == WORDS[at] + " " + WORDS[at + 1] + " " + WORDS[at + 2]
  {
    SegmentOfThree(DEFAULT, segment);
    VocabularyRepeats(segment, 0);
    VocabularyRepeats(segment, 1);
    VocabularyRepeats(segment, 2);
  }

  /** What the server sent is the script so far, so the transcript of it is the one above. */
  lemma {:induction false} SentIsScript(o: Options, updates: seq<Update>)
    requires forall u :: 0 <= u < |updates| ==> updates[u] == UpdateAt(o, u)
    ensures updates == Script(o, |updates|)
  {
    if updates == [] {
    } else {
      SentIsScript(o, updates[..|updates| - 1]);
    }
  }

  lemma SegmentsOnlyGrow(o: Options, u: nat)
    ensures u > 0 ==> ScriptAt(o, u - 1).segment <= ScriptAt(o, u).segment
  {
  }
}
