/** The scripted transcription server: which updates a session sends, and what a consumer that
    replaces by revision may rely on. */
module MockStt {
  import opened Audio
  import opened Arithmetic
  import opened Decimal

  type Positive = n: nat | n > 0 witness 1

  type Word = w: string | w != "" witness "voxmesh"

  /** framesPerUpdate divides a count, so it cannot be zero. `words` is the script. */
  datatype Options = Options(framesPerUpdate: Positive, revisionsPerSegment: nat, words: nat -> Word)
  {
    function FrameMs(): nat { framesPerUpdate * 100 }

    /** Audio covered by a number of updates. */
    function AudioMs(updates: nat): nat { updates * FrameMs() }

    /** Where a segment's words begin in the script. */
    function WordBase(segment: nat): nat { segment * revisionsPerSegment }

    /** Updates in a segment: with none configured, the first is already final. */
    function Length(): Positive { if revisionsPerSegment == 0 then 1 else revisionsPerSegment }
  }

  datatype Frame = Frame(sampleRateHz: nat, channels: nat, pcmS16Le: bool)
  {
    predicate IsSttFrame() { sampleRateHz == 16000 && channels == 1 && pcmS16Le }
  }

  datatype Update = Update(
    segmentId: string,
    revision: nat,
    isFinal: bool,
    stableText: string,
    mutableText: string,
    audioStartMs: nat,
    audioEndMs: nat)

  const WORDS: seq<Word> := ["voxmesh", "records", "meetings", "and", "transcribes", "them",
                             "with", "partial", "results", "under", "one", "second"]

  /** The server's own script, the vocabulary over and over. */
  function Scripted(framesPerUpdate: Positive, revisionsPerSegment: nat): Options {
    Options(framesPerUpdate, revisionsPerSegment, (index: nat) => WORDS[index % 12])
  }

  /** Two texts with a space between them unless the first is empty. */
  function Spaced(text: string, word: string): string {
    if text == "" then word else text + " " + word
  }

  /** n words of the script from a position on. */
  function Words(words: nat -> Word, base: nat, n: nat): (text: string)
    ensures text == "" <==> n == 0
  {
    if n == 0 then "" else Spaced(Words(words, base, n - 1), words(base + n - 1))
  }

  // ----- Segment ids --------------------------------------------------------------------

  const ID_CHARS := 15

  function Padded(s: Digits): (p: Digits)
    ensures |p| >= 4 && (|s| >= 4 ==> p == s)
    decreases 4 - |s|
  {
    if |s| >= 4 then s else Padded("0" + s)
  }

  /** The id as formatted into a buffer of sixteen bytes: what does not fit is cut off. */
  function SegmentId(index: nat): string {
    var whole := "seg-" + Padded(Print(index));
    if |whole| <= ID_CHARS then whole else whole[..ID_CHARS]
  }

  // ----- One update ---------------------------------------------------------------------

  /** The session's counters between two updates; `revision` counts from zero. */
  datatype Script = Script(segment: nat, revision: nat, startMs: nat)

  const OPENING := Script(0, 0, 0)

  predicate EndsSegment(o: Options, s: Script) { s.revision + 1 >= o.revisionsPerSegment }

  function UpdateFrom(o: Options, s: Script): Update {
    var base := o.WordBase(s.segment);
    var final := EndsSegment(o, s);
    Update(SegmentId(s.segment), s.revision + 1, final,
           Words(o.words, base, if final then s.revision + 1 else s.revision),
           if final then "" else o.words(base + s.revision),
           s.startMs, s.startMs + o.AudioMs(s.revision + 1))
  }

  function NextScript(o: Options, s: Script): Script {
    if EndsSegment(o, s) then Script(s.segment + 1, 0, s.startMs + o.AudioMs(o.revisionsPerSegment))
    else s.(revision := s.revision + 1)
  }

  function ScriptAt(o: Options, u: nat): Script {
    if u == 0 then OPENING else NextScript(o, ScriptAt(o, u - 1))
  }

  /** The u-th update of a session. */
  function UpdateAt(o: Options, u: nat): Update { UpdateFrom(o, ScriptAt(o, u)) }

  /** Which segment the u-th update belongs to, and how many updates of it came before. */
  function SegmentOf(o: Options, u: nat): nat { Quotient(u, o.Length()) }

  function OrdinalOf(o: Options, u: nat): nat { u % o.Length() }

  function Quotient(u: nat, length: Positive): nat {
    QuotientBounds(u, length);
    u / length
  }

  /** Segments follow each other without a gap: the counters in closed form. */
  lemma {:induction false} ScriptIsRegular(o: Options, u: nat)
    ensures var s := ScriptAt(o, u);
      && s.revision < o.Length()
      && u == s.segment * o.Length() + s.revision
      && s.segment == SegmentOf(o, u) && s.revision == OrdinalOf(o, u)
      && s.startMs == s.segment * o.AudioMs(o.revisionsPerSegment)
  {
    var s := ScriptAt(o, u);
    if u > 0 {
      var before := ScriptAt(o, u - 1);
      ScriptIsRegular(o, u - 1);
      OneMoreSegment(before.segment, o.Length());
      OneMoreSegment(before.segment, o.AudioMs(o.revisionsPerSegment));
    } else {
      NoSegment(o.Length());
      NoSegment(o.AudioMs(o.revisionsPerSegment));
    }
    DivMod(u, o.Length(), s.segment, s.revision);
  }

  lemma OneMoreSegment(n: nat, length: nat)
    ensures (n + 1) * length == n * length + length
  {
  }

  lemma NoSegment(length: nat)
    ensures 0 * length == 0
  {
  }

  lemma DivMod(u: nat, length: Positive, q: nat, r: nat)
    requires u == q * length + r && r < length
    ensures u / length == q && u % length == r
  {
    QuotientUnique(u, length, q);
  }

  // ----- A session ----------------------------------------------------------------------

  /** A frame after which an update is due: valid, and completing a group counted over all
      frames, valid or not. */
  predicate Due(o: Options, frames: seq<Frame>, i: nat)
    requires i < |frames|
  {
    frames[i].IsSttFrame() && (i + 1) % o.framesPerUpdate == 0
  }

  function DueCount(o: Options, frames: seq<Frame>, n: nat): nat
    requires n <= |frames|
  {
    if n == 0 then 0 else DueCount(o, frames, n - 1) + if Due(o, frames, n - 1) then 1 else 0
  }

  function InvalidCount(frames: seq<Frame>, n: nat): nat
    requires n <= |frames|
  {
    if n == 0 then 0 else InvalidCount(frames, n - 1) + if frames[n - 1].IsSttFrame() then 0 else 1
  }

  /** Appends the words already stable, one by one. */
  method BuildStable(words: nat -> Word, base: nat, revision: nat, isFinal: bool) returns (stable: string)
    ensures stable == Words(words, base, if isFinal then revision + 1 else revision)
  {
    stable := "";
    for w := 0 to revision
      invariant stable == Words(words, base, w)
    {
      if stable != "" {
        stable := stable + " ";
      }
      stable := stable + words(base + w);
    }
    if isFinal {
      if stable != "" {
        stable := stable + " ";
      }
      stable := stable + words(base + revision);
    }
  }

  method BuildUpdate(o: Options, script: Script) returns (update: Update)
    ensures update == UpdateFrom(o, script)
  {
    var segmentIndex, revision, segmentStartMs := script.segment, script.revision, script.startMs;
    var wordBase := o.WordBase(segmentIndex);
    var isFinal := revision + 1 >= o.revisionsPerSegment;
    var stable := BuildStable(o.words, wordBase, revision, isFinal);
    var mutablePart := if isFinal then "" else o.words(wordBase + revision);
    update := Update(SegmentId(segmentIndex), revision + 1, isFinal, stable, mutablePart, segmentStartMs,
                     segmentStartMs + o.AudioMs(revision + 1));
  }

  /** The counters after an update was sent. */
  method Advance(o: Options, script: Script) returns (next: Script)
    ensures next == NextScript(o, script)
  {
    var segmentIndex, revision, segmentStartMs := script.segment, script.revision, script.startMs;
    if revision + 1 >= o.revisionsPerSegment {
      segmentStartMs := segmentStartMs + o.AudioMs(o.revisionsPerSegment);
      segmentIndex := segmentIndex + 1;
      revision := 0;
    } else {
      revision := revision + 1;
    }
    next := Script(segmentIndex, revision, segmentStartMs);
  }

  /** A session reads frames and sends updates until the stream ends or a write fails: exactly
      the script's updates, one for each frame after which one is due. */
  method StreamTranscription(o: Options, frames: seq<Frame>, writes: nat -> bool)
    returns (updates: seq<Update>, received: nat, invalid: nat, broken: bool)
    ensures received <= |frames| && (!broken ==> received == |frames|)
    ensures |updates| + (if broken then 1 else 0) == DueCount(o, frames, received)
    ensures forall u :: 0 <= u < |updates| ==> writes(u) && updates[u] == UpdateAt(o, u)
    ensures broken ==> !writes(|updates|) && received > 0 && Due(o, frames, received - 1)
    ensures invalid == InvalidCount(frames, received)
  {
    updates, received, invalid, broken := [], 0, 0, false;
    var script := OPENING;
    while received < |frames|
      invariant received <= |frames|
      invariant script == ScriptAt(o, |updates|)
      invariant |updates| == DueCount(o, frames, received)
      invariant forall u :: 0 <= u < |updates| ==> writes(u) && updates[u] == UpdateAt(o, u)
      invariant invalid == InvalidCount(frames, received)
    {
      var frame := frames[received];
      received := received + 1;
      if !frame.IsSttFrame() {
        invalid := invalid + 1;
        continue;
      }
      if received % o.framesPerUpdate != 0 {
        continue;
      }
      var update := BuildUpdate(o, script);
      if !writes(|updates|) {
        broken := true;
        return;
      }
      updates := updates + [update];
      script := Advance(o, script);
    }
  }

  // ----- What consumers rely on ---------------------------------------------------------

  /** Revisions of a segment run 1, 2, 3, ... and the last one, alone, is final; a final one is
      followed by the first of the next segment. */
  lemma RevisionsRunToFinal(o: Options, u: nat)
    ensures o.Length() == if o.revisionsPerSegment == 0 then 1 else o.revisionsPerSegment
    ensures u == SegmentOf(o, u) * o.Length() + OrdinalOf(o, u) && OrdinalOf(o, u) < o.Length()
    ensures var now, next, length := UpdateAt(o, u), UpdateAt(o, u + 1), o.Length();
      && now.segmentId == SegmentId(SegmentOf(o, u)) && now.revision == OrdinalOf(o, u) + 1
      && (now.isFinal <==> now.revision == length)
      && next.segmentId == SegmentId(SegmentOf(o, u) + if now.isFinal then 1 else 0)
      && next.revision == if now.isFinal then 1 else now.revision + 1
  {
    ScriptIsRegular(o, u);
  }

  lemma WordsGrow(words: nat -> Word, base: nat, n: nat)
    ensures Words(words, base, n + 1) == Spaced(Words(words, base, n), words(base + n))
  {
  }

  /** Committed text only grows: a revision's words become the next one's stable text, the
      final revision commits one more, and has nothing left to change. Update u is about word
      u, and a segment opens with nothing committed before it. */
  lemma StableTextGrows(o: Options, u: nat)
    ensures var now, next := UpdateAt(o, u), UpdateAt(o, u + 1);
      && (now.mutableText == "" <==> now.isFinal)
      && (!now.isFinal ==>
            var grown := Spaced(now.stableText, now.mutableText);
            && now.mutableText == o.words(u)
            && next.stableText == if next.isFinal then Spaced(grown, o.words(u + 1)) else grown)
      && (now.revision == 1 && o.revisionsPerSegment > 0 ==>
            now.stableText == if now.isFinal then o.words(u) else "")
  {
    var now := ScriptAt(o, u);
    var base := o.WordBase(now.segment);
    ScriptIsRegular(o, u);
    WordsGrow(o.words, base, now.revision);
    WordsGrow(o.words, base, now.revision + 1);
  }

  /** An update covers its segment's audio so far. Within a segment the end moves on by one
      update's audio; after a final one the next segment starts where it ended, exactly when
      segments have at least one revision. */
  lemma SegmentsAreContiguous(o: Options, u: nat)
    ensures var now, next := UpdateAt(o, u), UpdateAt(o, u + 1);
      && now.audioEndMs == now.audioStartMs + now.revision * (o.framesPerUpdate * 100) > now.audioStartMs
      && (u == 0 ==> now.audioStartMs == 0)
      && (!now.isFinal ==>
            next.audioStartMs == now.audioStartMs && next.audioEndMs == now.audioEndMs + o.framesPerUpdate * 100)
      && (now.isFinal ==> (next.audioStartMs == now.audioEndMs <==> o.revisionsPerSegment >= 1))
  {
    ScriptIsRegular(o, u);
    var s, ms := ScriptAt(o, u), o.FrameMs();
    Grows(s.revision, ms);
    Grows(s.revision + 1, ms);
  }

  lemma Grows(n: nat, ms: nat)
    requires ms > 0
    ensures (n + 1) * ms == n * ms + ms && n * ms >= 0 && 0 * ms == 0
  {
  }

  /** What a session takes in: an update is due after every frame of sixteen-kilohertz mono integer
      audio that completes a group, counted over all frames, and no other frame is valid. */
  lemma DueMeansGroupOfValid(o: Options, frames: seq<Frame>, i: nat)
    requires i < |frames|
    ensures var valid := frames[i].sampleRateHz == 16000 && frames[i].channels == 1 && frames[i].pcmS16Le;
      && (Due(o, frames, i) <==> valid && (i + 1) % o.framesPerUpdate == 0)
      && (InvalidCount(frames, i + 1) == InvalidCount(frames, i) <==> valid)
  {
  }

  predicate AllValid(frames: seq<Frame>, n: nat)
    requires n <= |frames|
  {
    forall i :: 0 <= i < n ==> frames[i] == Frame(16000, 1, true)
  }

  /** Of valid frames, every group of framesPerUpdate gets one update. */
  lemma {:induction false} ValidFramesAreAnswered(o: Options, frames: seq<Frame>, n: nat)
    requires n <= |frames| && AllValid(frames, n)
    ensures DueCount(o, frames, n) == n / o.framesPerUpdate && InvalidCount(frames, n) == 0
  {
    if n == 0 {
    } else {
      ValidFramesAreAnswered(o, frames, n - 1);
      OneMoreFrame(n - 1, o.framesPerUpdate);
    }
  }

  lemma OneMoreFrame(n: nat, group: Positive)
    ensures (n + 1) / group == n / group + if (n + 1) % group == 0 then 1 else 0
  {
    QuotientBounds(n, group);
    QuotientBounds(n + 1, group);
    var q, r := n / group, n % group;
    assert n == q * group + r;
    if r + 1 == group {
      assert (q + 1) * group == q * group + group;
      DivMod(n + 1, group, q + 1, 0);
    } else {
      DivMod(n + 1, group, q, r + 1);
    }
  }

  // ----- Ids tell segments apart, up to a point -----------------------------------------

  /** Zeros in front do not change a number. */
  lemma {:induction false} ValueIgnoresZero(s: Digits)
    ensures Value("0" + s) == Value(s)
  {
    if s == "" {
      assert Init("0" + s) == "";
    } else {
      ValueIgnoresZero(Init(s));
      assert Init("0" + s) == "0" + Init(s);
    }
  }

  lemma {:induction false} ValueOfPadded(s: Digits)
    ensures Value(Padded(s)) == Value(s)
    decreases 4 - |s|
  {
    if |s| >= 4 {
    } else {
      ValueIgnoresZero(s);
      ValueOfPadded("0" + s);
    }
  }

  lemma {:induction false} PaddedLength(s: Digits)
    ensures |Padded(s)| == if |s| < 4 then 4 else |s|
    decreases 4 - |s|
  {
    if |s| >= 4 {
    } else {
      PaddedLength("0" + s);
    }
  }

  const ID_LIMIT := 100_000_000_000

  lemma LimitIsElevenDigits()
    ensures PowerOfTen(11) == ID_LIMIT
  {
    assert PowerOfTen(5) == 100_000;
    assert PowerOfTen(8) == 100_000_000;
  }

  /** Below the limit the whole number fits. */
  lemma IdIsWhole(index: nat)
    requires index < ID_LIMIT
    ensures SegmentId(index) == "seg-" + Padded(Print(index))
  {
    LimitIsElevenDigits();
    PrintLength(index, 11);
    PaddedLength(Print(index));
  }

  lemma IdsDiffer(i: nat, j: nat)
    requires i < j < ID_LIMIT
    ensures SegmentId(i) != SegmentId(j)
  {
    IdIsWhole(i);
    IdIsWhole(j);
    if SegmentId(i) == SegmentId(j) {
      assert Padded(Print(i)) == SegmentId(i)[4..] == SegmentId(j)[4..] == Padded(Print(j));
      ValueOfPadded(Print(i));
      ValueOfPadded(Print(j));
      ValueOfPrint(i);
      ValueOfPrint(j);
    }
  }

  /** The first segment whose number is cut takes the id of an earlier one. */
  lemma IdCollides()
    ensures SegmentId(ID_LIMIT / 10) == SegmentId(ID_LIMIT)
  {
    var i := ID_LIMIT / 10;
    LimitIsElevenDigits();
    PrintLength(i, 11);
    PrintLength(i, 10);
    assert PowerOfTen(11) == 10 * PowerOfTen(10);
    PaddedLength(Print(i));
    PrintTenfold(i);
    var whole := "seg-" + Padded(Print(ID_LIMIT));
    assert whole[..ID_CHARS] == "seg-" + Print(i);
  }

  lemma PrintTenfold(n: nat)
    requires n > 0
    ensures Print(10 * n) == Print(n) + "0"
  {
    assert 10 * n / 10 == n && 10 * n % 10 == 0;
  }

  /** Every one of the first n segments has an id of its own exactly up to the limit. */
  lemma IdsAreDistinct(n: nat)
    ensures (forall i, j :: 0 <= i < j < n ==> SegmentId(i) != SegmentId(j)) <==> n <= ID_LIMIT
  {
    if n <= ID_LIMIT {
      forall i, j | 0 <= i < j < n ensures SegmentId(i) != SegmentId(j) { IdsDiffer(i, j); }
    } else {
      IdCollides();
    }
  }

  lemma PadThree(a: char)
    requires IsDigit(a)
    ensures Padded([a]) == ['0', '0', '0', a]
  {
    PadTwo('0', a);
    assert "0" + [a] == ['0', a];
  }

  lemma PadTwo(a: char, b: char)
    requires IsDigit(a) && IsDigit(b)
    ensures Padded([a, b]) == ['0', '0', a, b]
  {
    PadOne('0', a, b);
    assert "0" + [a, b] == ['0', a, b];
  }

  lemma PadOne(a: char, b: char, c: char)
    requires IsDigit(a) && IsDigit(b) && IsDigit(c)
    ensures Padded([a, b, c]) == ['0', a, b, c]
  {
    assert "0" + [a, b, c] == ['0', a, b, c];
  }

  lemma SmallQuotients(n: nat)
    ensures n < 10 ==> n / 10 == 0 && n % 10 == n
    ensures n < 100 ==> n / 100 == 0 && n / 10 < 10
    ensures n < 1000 ==> n / 1000 == 0 && n / 100 < 10
    ensures n < 10_000 ==> n / 1000 < 10 && n / 1000 % 10 == n / 1000
  {
  }

  /** The four digits of a number below ten thousand. */
  function FourDigits(n: nat): Digits {
    [DigitOf(n / 1000 % 10), DigitOf(n / 100 % 10), DigitOf(n / 10 % 10), DigitOf(n % 10)]
  }

  lemma PaddedOne(n: nat)
    requires n < 10
    ensures Padded(Print(n)) == FourDigits(n)
  {
    PrintsShort(n);
    PadThree(DigitOf(n));
  }

  lemma PaddedTwo(n: nat)
    requires 10 <= n < 100
    ensures Padded(Print(n)) == FourDigits(n)
  {
    PrintsShort(n);
    SmallQuotients(n);
    PadTwo(DigitOf(n / 10), DigitOf(n % 10));
  }

  lemma PaddedThree(n: nat)
    requires 100 <= n < 1000
    ensures Padded(Print(n)) == FourDigits(n)
  {
    PrintsShort(n);
    SmallQuotients(n);
    PadOne(DigitOf(n / 100), DigitOf(n / 10 % 10), DigitOf(n % 10));
  }

  lemma PaddedFour(n: nat)
    requires 1000 <= n < 10_000
    ensures Padded(Print(n)) == FourDigits(n)
  {
    PrintsShort(n);
    SmallQuotients(n);
    var digits := [DigitOf(n / 1000), DigitOf(n / 100 % 10), DigitOf(n / 10 % 10), DigitOf(n % 10)];
    assert Print(n) == digits && |digits| == 4;
  }

  /** Ids have at least four digits, the most significant first and zeros in front. */
  lemma IdReads(index: nat)
    requires index < 10_000
    ensures SegmentId(index) == "seg-" + FourDigits(index)
  {
    IdIsWhole(index);
    if index < 10 {
      PaddedOne(index);
    } else if index < 100 {
      PaddedTwo(index);
    } else if index < 1000 {
      PaddedThree(index);
    } else {
      PaddedFour(index);
    }
  }
}
