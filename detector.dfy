/**
 * The speech pipeline of the AIDetector component
 * (components/AIDetector.tsx): recognition results are split into final and
 * interim text, final speech is committed to a rolling 300-character history,
 * an "effective text" is broadcast and shown as a 100-character caption, and
 * the local detector counts the safe word and reports DANGER (2) or
 * CRITICAL (3+) once per silence cycle.
 */
module Detector {
  import opened Types
  import opened Text

  /** Characters of committed history kept by the recognition path. */
  const HistoryLimit: nat := 300
  /** Characters of the effective text shown as the live caption. */
  const CaptionLimit: nat := 100
  /** Minimum spacing of remote analyses, in milliseconds. */
  const AnalysisSpacingMs: int := 2000

  // ---------------------------------------------------------------------
  // Recognition results
  // ---------------------------------------------------------------------

  datatype SpeechResult = SpeechResult(isFinal: bool, transcript: string)

  /** The concatenated transcripts of the final results, in order. */
  function FinalText(rs: seq<SpeechResult>): string {
    if rs == [] then [] else (if rs[0].isFinal then rs[0].transcript else []) + FinalText(rs[1..])
  }

  /** The concatenated transcripts of the interim results, in order. */
  function InterimText(rs: seq<SpeechResult>): string {
    if rs == [] then [] else (if rs[0].isFinal then [] else rs[0].transcript) + InterimText(rs[1..])
  }

  /** The results from `resultIndex` on (none when the index is past the end). */
  function From(rs: seq<SpeechResult>, k: nat): seq<SpeechResult> {
    if k <= |rs| then rs[k..] else []
  }

  /** Splitting distributes over concatenation: every result lands in exactly one of the two texts, in order. */
  lemma SplitDistributes(a: seq<SpeechResult>, b: seq<SpeechResult>)
    ensures FinalText(a + b) == FinalText(a) + FinalText(b)
    ensures InterimText(a + b) == InterimText(a) + InterimText(b)
  {
    FinalDistributes(a, b);
    InterimDistributes(a, b);
  }

  lemma {:induction false} FinalDistributes(a: seq<SpeechResult>, b: seq<SpeechResult>)
    ensures FinalText(a + b) == FinalText(a) + FinalText(b)
    decreases |a|
  {
    if a == [] {
      assert a + b == b;
    } else {
      var ab := a + b;
      ConcatTail(a, b);
      var x: string := if a[0].isFinal then a[0].transcript else [];
      FinalDistributes(a[1..], b);
      assert FinalText(ab) == x + (FinalText(a[1..]) + FinalText(b));
      ConcatAssoc(x, FinalText(a[1..]), FinalText(b));
    }
  }

  lemma {:induction false} InterimDistributes(a: seq<SpeechResult>, b: seq<SpeechResult>)
    ensures InterimText(a + b) == InterimText(a) + InterimText(b)
    decreases |a|
  {
    if a == [] {
      assert a + b == b;
    } else {
      var ab := a + b;
      ConcatTail(a, b);
      var x: string := if a[0].isFinal then [] else a[0].transcript;
      InterimDistributes(a[1..], b);
      assert InterimText(ab) == x + (InterimText(a[1..]) + InterimText(b));
      ConcatAssoc(x, InterimText(a[1..]), InterimText(b));
    }
  }

  /** One more result extends exactly one of the two texts. */
  lemma CollectOne(results: seq<SpeechResult>, lo: nat, i: nat)
    requires lo <= i < |results|
    ensures FinalText(results[lo..i + 1]) == FinalText(results[lo..i]) + (if results[i].isFinal then results[i].transcript else [])
    ensures InterimText(results[lo..i + 1]) == InterimText(results[lo..i]) + (if results[i].isFinal then [] else results[i].transcript)
  {
    var r, a := results[i], results[lo..i];
    assert results[lo..i + 1] == a + [r];
    assert FinalText([r]) == (if r.isFinal then r.transcript else []) by {
      assert [r][1..] == [];
    }
    assert InterimText([r]) == (if r.isFinal then [] else r.transcript) by {
      assert [r][1..] == [];
    }
    SplitDistributes(a, [r]);
  }

  /** The loop over `event.results` from `resultIndex` on. */
  method CollectResults(results: seq<SpeechResult>, resultIndex: nat) returns (finalText: string, interimText: string)
    ensures finalText == FinalText(From(results, resultIndex))
    ensures interimText == InterimText(From(results, resultIndex))
  {
    finalText, interimText := "", "";
    var i := resultIndex;
    while i < |results|
      invariant resultIndex <= i
      invariant resultIndex <= |results| ==> i <= |results|
      invariant i <= |results| ==> finalText == FinalText(results[resultIndex..i])
      invariant i <= |results| ==> interimText == InterimText(results[resultIndex..i])
      invariant i > |results| ==> finalText == "" && interimText == ""
    {
      var r := results[i];
      CollectOne(results, resultIndex, i);
      if r.isFinal {
        finalText := finalText + r.transcript;
      } else {
        interimText := interimText + r.transcript;
      }
      i := i + 1;
    }
    if resultIndex <= |results| {
      assert results[resultIndex..i] == results[resultIndex..];
    }
  }

  // ---------------------------------------------------------------------
  // Counting the safe word
  // ---------------------------------------------------------------------

  /** The pattern detectSafeWordLocal builds: the lower-cased safe word with its operators escaped. */
  function SafeWordPattern(safeword: string): string {
    EscapeRegExp(ToLower(safeword))
  }

  /** The pattern matches the lower-cased safe word literally, and nothing else. */
  lemma PatternIsSafeWord(safeword: string)
    ensures LiteralOf(SafeWordPattern(safeword)) == Some(ToLower(safeword))
  {
    EscapedIsLiteral(ToLower(safeword));
  }

  /**
   * detectSafeWordLocal's count: the global matches of the safe word's
   * pattern in the lower-cased text, which by PatternIsSafeWord are the
   * greedy literal occurrences of the lower-cased safe word.
   */
  function SafeWordCount(text: string, safeword: string): (n: nat)
    requires safeword != []
    ensures n <= |text|
  {
    CountMatches(ToLower(text), ToLower(safeword))
  }

  /** The count is positive exactly when the lower-cased text contains the lower-cased safe word. */
  lemma SafeWordCountPositive(text: string, safeword: string)
    requires safeword != []
    ensures SafeWordCount(text, safeword) > 0 <==> Contains(ToLower(text), ToLower(safeword))
  {
    CountPositiveIffContains(ToLower(text), ToLower(safeword));
  }

  /** The count ignores letter case in both the text and the safe word. */
  lemma CountIsCaseInsensitive(text: string, safeword: string)
    requires safeword != []
    ensures SafeWordCount(ToLower(text), safeword) == SafeWordCount(text, safeword)
    ensures SafeWordCount(text, ToLower(safeword)) == SafeWordCount(text, safeword)
  {
    ToLowerIdempotent(text);
    ToLowerIdempotent(safeword);
  }

  /**
   * A safe word holding an operator such as "." would not be read literally
   * as it stands; escaped, the pattern matches the lower-cased word as itself.
   */
  lemma OperatorsAreEscaped(safeword: string, k: nat)
    requires k < |safeword| && IsOperatorChar(safeword[k]) && '\\' !in safeword
    ensures LiteralOf(ToLower(safeword)) == None
    ensures LiteralOf(SafeWordPattern(safeword)) == Some(ToLower(safeword))
  {
    var lw := ToLower(safeword);
    assert lw[k] == safeword[k];
    assert '\\' !in lw by {
      forall j | 0 <= j < |lw| ensures lw[j] != '\\' {
        assert safeword[j] in safeword;
      }
    }
    OperatorIsNotLiteral(lw, k);
    PatternIsSafeWord(safeword);
  }

  /** What the safe-word count counts: the most non-overlapping occurrences of the lower-cased word in the lower-cased text. */
  lemma SafeWordOccurrences(text: string, safeword: string)
    requires safeword != []
    ensures exists ps :: Disjoint(ToLower(text), ToLower(safeword), ps) && |ps| == SafeWordCount(text, safeword)
    ensures forall ps :: Disjoint(ToLower(text), ToLower(safeword), ps) ==> |ps| <= SafeWordCount(text, safeword)
  {
    CountIsNonOverlapping(ToLower(text), ToLower(safeword));
  }

  lemma CountTwice(lw: string)
    requires lw != [] && lw[0] != ' '
    ensures CountMatches(lw + " " + lw, lw) == 2
  {
    var tail := [' '] + lw;
    assert " " + lw == tail;
    assert lw + " " + lw == lw + tail;
    CountLeadingWord(lw, tail);
    CountSkipChar(' ', lw, lw);
    assert lw + [] == lw;
    CountLeadingWord(lw, []);
  }

  lemma CountThrice(lw: string)
    requires lw != [] && lw[0] != ' '
    ensures CountMatches(lw + " " + lw + " " + lw, lw) == 3
  {
    var two := lw + " " + lw;
    var tail := [' '] + two;
    assert lw + " " + lw + " " + lw == lw + tail;
    calc {
      CountMatches(lw + tail, lw);
    == { CountLeadingWord(lw, tail); }
      1 + CountMatches(tail, lw);
    == { CountSkipChar(' ', two, lw); }
      1 + CountMatches(two, lw);
    == { CountTwice(lw); }
      3;
    }
  }

  lemma LowerOfRepetitions(w: string)
    ensures ToLower(w + " " + w) == ToLower(w) + " " + ToLower(w)
    ensures ToLower(w + " " + w + " " + w) == ToLower(w) + " " + ToLower(w) + " " + ToLower(w)
  {
    var lw := ToLower(w);
    assert ToLower(" ") == " ";
    ToLowerConcat(w, " ");
    ToLowerConcat(w + " ", w);
    ToLowerConcat(w + " " + w, " ");
    ToLowerConcat(w + " " + w + " ", w);
  }

  /** The word said twice, or three times, separated by spaces, is counted that often. */
  lemma CountSpokenRepetitions(w: string)
    requires w != [] && w[0] != ' '
    ensures SafeWordCount(w + " " + w, w) == 2
    ensures SafeWordCount(w + " " + w + " " + w, w) == 3
  {
    var lw := ToLower(w);
    assert lw[0] == LowerChar(w[0]);
    LowerOfRepetitions(w);
    CountTwice(lw);
    CountThrice(lw);
  }

  // ---------------------------------------------------------------------
  // Local detection with the escalation memo
  // ---------------------------------------------------------------------

  /** The history and memo after one detection, and the tier reported, if any. */
  datatype Detection = Detection(history: string, lastTrigger: ThreatLevel, emitted: Option<ThreatLevel>)

  function DetectSafeWord(history: string, last: ThreatLevel, text: string, safeword: string): (d: Detection)
    ensures Rank(d.lastTrigger) >= Rank(last)
    ensures d.emitted.Some? ==> d.emitted.value == d.lastTrigger && Rank(d.lastTrigger) > Rank(last)
    ensures d.emitted.None? ==> d.lastTrigger == last
    ensures d.history == (if d.emitted == Some(Critical) then "" else history)
  {
    if safeword == [] then Detection(history, last, None)
    else
      var count := SafeWordCount(text, safeword);
      if count >= 3 then
        if last != Critical then Detection("", Critical, Some(Critical)) else Detection(history, last, None)
      else if count == 2 then
        if last != Danger && last != Critical then Detection(history, Danger, Some(Danger))
        else Detection(history, last, None)
      else Detection(history, last, None)
  }

  /** The tier rules of detectSafeWordLocal, case by case. */
  lemma DetectionTiers(history: string, last: ThreatLevel, text: string, safeword: string)
    ensures safeword == [] ==> DetectSafeWord(history, last, text, safeword) == Detection(history, last, None)
    ensures safeword != [] && SafeWordCount(text, safeword) >= 3 ==>
      DetectSafeWord(history, last, text, safeword) ==
        (if last != Critical then Detection("", Critical, Some(Critical)) else Detection(history, last, None))
    ensures safeword != [] && SafeWordCount(text, safeword) == 2 ==>
      DetectSafeWord(history, last, text, safeword) ==
        (if last in {NoThreat, Suspicious} then Detection(history, Danger, Some(Danger)) else Detection(history, last, None))
    ensures safeword != [] && SafeWordCount(text, safeword) <= 1 ==>
      DetectSafeWord(history, last, text, safeword) == Detection(history, last, None)
    ensures DetectSafeWord(history, last, text, safeword).emitted == Some(Critical) <==>
      safeword != [] && SafeWordCount(text, safeword) >= 3 && last != Critical
    ensures DetectSafeWord(history, last, text, safeword).emitted == Some(Danger) <==>
      safeword != [] && SafeWordCount(text, safeword) == 2 && last in {NoThreat, Suspicious}
  {
  }

  // ---------------------------------------------------------------------
  // The detector's refs as a value
  // ---------------------------------------------------------------------

  /**
   * recentHistoryRef, lastTriggerRef, the caption (localTranscript), whether a
   * silence timeout is pending, lastAnalysisTime and the analysing flag.
   */
  datatype DetState = DetState(
    history: string,
    lastTrigger: ThreatLevel,
    caption: string,
    silenceArmed: bool,
    lastAnalysis: int,
    analyzing: bool)

  const InitialDet: DetState := DetState("", NoThreat, "", false, 0, false)

  /** A callback the detector invokes: onTranscript(text) or onThreatDetected(level). */
  datatype Output = TranscriptOut(text: string) | ThreatOut(level: ThreatLevel)

  datatype Step = Step(det: DetState, out: seq<Output>)

  /** Committing final speech: appended after a space, then cut to the last 300 characters. */
  function AppendFinal(history: string, final: string): (h: string)
    ensures final == [] ==> h == history
    ensures final != [] ==> |h| <= HistoryLimit && |h| <= |history| + 1 + |final| && h == (history + " " + final)[|history + " " + final| - |h|..]
    ensures final != [] && |history| + 1 + |final| <= HistoryLimit ==> h == history + " " + final
    ensures final != [] && |history| + 1 + |final| > HistoryLimit ==> |h| == HistoryLimit
  {
    if final == [] then history else TakeLast(history + " " + final, HistoryLimit)
  }

  /** The broadcast text: history and interim speech joined by a space, with the edge whitespace removed. */
  function EffectiveText(history: string, interim: string): (r: string)
    ensures exists k :: TrimmedAt(history + " " + interim, r, k)
  {
    Trim(history + " " + interim)
  }

  function ThreatOutputs(d: Detection): seq<Output> {
    if d.emitted.Some? then [ThreatOut(d.emitted.value)] else []
  }

  /** One `onresult` event: re-arm the silence timeout, commit, broadcast, caption, detect. */
  function OnResult(d: DetState, results: seq<SpeechResult>, resultIndex: nat, safeword: string): (st: Step)
    ensures 1 <= |st.out| <= 2 && st.out[0].TranscriptOut? && st.det.silenceArmed
    ensures st.det.caption == TakeLast(st.out[0].text, CaptionLimit)
    ensures |st.out| == 2 ==> st.out[1] == ThreatOut(st.det.lastTrigger) && Rank(st.det.lastTrigger) > Rank(d.lastTrigger)
    ensures |st.out| == 1 ==> st.det.lastTrigger == d.lastTrigger
    ensures st.det.lastAnalysis == d.lastAnalysis && st.det.analyzing == d.analyzing
  {
    var from := From(results, resultIndex);
    var h := AppendFinal(d.history, FinalText(from));
    var eff := EffectiveText(h, InterimText(from));
    var det := DetectSafeWord(h, d.lastTrigger, eff, safeword);
    var next := d.(history := det.history, lastTrigger := det.lastTrigger, caption := TakeLast(eff, CaptionLimit), silenceArmed := true);
    if det.emitted.Some? then Step(next, [TranscriptOut(eff), ThreatOut(det.lastTrigger)])
    else Step(next, [TranscriptOut(eff)])
  }

  /** OnResult spelled out step by step, for the object that performs it. */
  lemma OnResultSteps(d: DetState, results: seq<SpeechResult>, resultIndex: nat, safeword: string)
    ensures var from := From(results, resultIndex);
      var h := AppendFinal(d.history, FinalText(from));
      var eff := EffectiveText(h, InterimText(from));
      var det := DetectSafeWord(h, d.lastTrigger, eff, safeword);
      var next := d.(history := det.history, lastTrigger := det.lastTrigger, caption := TakeLast(eff, CaptionLimit), silenceArmed := true);
      OnResult(d, results, resultIndex, safeword)
        == if det.emitted.Some? then Step(next, [TranscriptOut(eff), ThreatOut(det.lastTrigger)])
           else Step(next, [TranscriptOut(eff)])
  {
  }

  /** OnResult in terms of the values the object computes on the way. */
  lemma OnResultIs(d: DetState, results: seq<SpeechResult>, resultIndex: nat, safeword: string,
                   h: string, eff: string, det: Detection)
    requires h == AppendFinal(d.history, FinalText(From(results, resultIndex)))
    requires eff == EffectiveText(h, InterimText(From(results, resultIndex)))
    requires det == DetectSafeWord(h, d.lastTrigger, eff, safeword)
    ensures OnResult(d, results, resultIndex, safeword)
      == Step(d.(history := det.history, lastTrigger := det.lastTrigger, caption := TakeLast(eff, CaptionLimit), silenceArmed := true),
              [TranscriptOut(eff)] + ThreatOutputs(det))
  {
    OnResultSteps(d, results, resultIndex, safeword);
    TranscriptThenThreat(det, eff);
  }

  /** A third safe word after DANGER: the result reports CRITICAL, and its transcript holds the safe word. */
  lemma ThirdWordReportsCritical(d: DetState, results: seq<SpeechResult>, resultIndex: nat, safeword: string)
    requires d.lastTrigger == Danger && safeword != []
    requires var from := From(results, resultIndex);
      SafeWordCount(EffectiveText(AppendFinal(d.history, FinalText(from)), InterimText(from)), safeword) >= 3
    ensures var from := From(results, resultIndex);
      var eff := EffectiveText(AppendFinal(d.history, FinalText(from)), InterimText(from));
      && OnResult(d, results, resultIndex, safeword).out == [TranscriptOut(eff), ThreatOut(Critical)]
      && Contains(ToLower(eff), ToLower(safeword))
  {
    var from := From(results, resultIndex);
    var h := AppendFinal(d.history, FinalText(from));
    var eff := EffectiveText(h, InterimText(from));
    OnResultSteps(d, results, resultIndex, safeword);
    DetectionTiers(h, Danger, eff, safeword);
    SafeWordCountPositive(eff, safeword);
  }

  /** The outputs of one detection pass, as a list. */
  lemma TranscriptThenThreat(det: Detection, eff: string)
    requires det.emitted.Some? ==> det.emitted.value == det.lastTrigger
    ensures [TranscriptOut(eff)] + ThreatOutputs(det)
      == if det.emitted.Some? then [TranscriptOut(eff), ThreatOut(det.lastTrigger)] else [TranscriptOut(eff)]
  {
    if det.emitted.Some? {
      assert [TranscriptOut(eff)] + [ThreatOut(det.lastTrigger)] == [TranscriptOut(eff), ThreatOut(det.lastTrigger)];
    } else {
      assert [TranscriptOut(eff)] + [] == [TranscriptOut(eff)];
    }
  }

  /** The silence timeout: history, memo and caption cleared. */
  function OnSilence(d: DetState): (r: DetState)
    ensures d.silenceArmed ==> r == d.(history := "", lastTrigger := NoThreat, caption := "", silenceArmed := false)
    ensures !d.silenceArmed ==> r == d
  {
    if d.silenceArmed then d.(history := "", lastTrigger := NoThreat, caption := "", silenceArmed := false) else d
  }

  /**
   * handleSimulation: a typed line containing "stop" is forwarded as it is
   * (when someone listens); anything else is appended to the history without
   * truncation, broadcast, and (unless passive) run through detection.
   */
  function Simulate(d: DetState, input: string, safeword: string, passive: bool, observed: bool): (st: Step)
    ensures input == [] ==> st == Step(d, [])
    ensures input != [] && Contains(ToLower(input), "stop") && observed ==> st == Step(d, [TranscriptOut(input)])
    ensures Rank(st.det.lastTrigger) >= Rank(d.lastTrigger)
    ensures input != [] && !(Contains(ToLower(input), "stop") && observed) ==>
      var c := d.history + " " + input;
      && (observed ==> st.out != [] && st.out[0] == TranscriptOut(c))
      && (!observed ==> forall i :: 0 <= i < |st.out| ==> st.out[i].ThreatOut?)
      && (passive ==> st == Step(d.(history := c), if observed then [TranscriptOut(c)] else []))
      && (!passive ==> st.det.lastTrigger == DetectSafeWord(c, d.lastTrigger, c, safeword).lastTrigger)
      && (st.det.history == c || (!passive && st.det.history == [] && Critical in Threats(st.out)))
  {
    if input == [] then Step(d, [])
    else if Contains(ToLower(input), "stop") && observed then Step(d, [TranscriptOut(input)])
    else
      var combined := d.history + " " + input;
      var shown := if observed then [TranscriptOut(combined)] else [];
      if passive then Step(d.(history := combined), shown)
      else
        var det := DetectSafeWord(combined, d.lastTrigger, combined, safeword);
        Step(d.(history := det.history, lastTrigger := det.lastTrigger), shown + ThreatOutputs(det))
  }

  /** The recognition path and the silence reset keep the history within 300 characters. */
  lemma {:induction false} HistoryStaysBounded(d: DetState, results: seq<SpeechResult>, resultIndex: nat, safeword: string)
    requires |d.history| <= HistoryLimit
    ensures |OnResult(d, results, resultIndex, safeword).det.history| <= HistoryLimit
    ensures |OnSilence(d).history| <= HistoryLimit
  {
    var from := From(results, resultIndex);
    var h := AppendFinal(d.history, FinalText(from));
    var eff := EffectiveText(h, InterimText(from));
    var det := DetectSafeWord(h, d.lastTrigger, eff, safeword);
    OnResultIs(d, results, resultIndex, safeword, h, eff, det);
    assert |det.history| <= |h| <= HistoryLimit;
  }

  /**
   * The simulation path does not truncate: unless the line completes a
   * CRITICAL report, a full history grows past 300 characters.
   */
  lemma SimulationSkipsTruncation(d: DetState, input: string, safeword: string, passive: bool, observed: bool)
    requires |d.history| == HistoryLimit && input != [] && !(Contains(ToLower(input), "stop") && observed)
    ensures var st := Simulate(d, input, safeword, passive, observed);
      Critical !in Threats(st.out) ==> |st.det.history| == HistoryLimit + 1 + |input|
  {
  }

  // ---------------------------------------------------------------------
  // The throttled remote analysis
  // ---------------------------------------------------------------------

  datatype Gate = Gate(det: DetState, query: bool)

  /**
   * handleAnalysis up to the remote call: nothing while an analysis is
   * pending or within 2000 ms of the last one; otherwise the time is recorded
   * and the analyzer is queried only while nothing was reported locally.
   */
  function StartAnalysis(d: DetState, now: int): (g: Gate)
    ensures d.analyzing || now - d.lastAnalysis < AnalysisSpacingMs ==> g == Gate(d, false)
    ensures !d.analyzing && now - d.lastAnalysis >= AnalysisSpacingMs ==>
      g.det == d.(lastAnalysis := now, analyzing := g.query) && (g.query <==> d.lastTrigger == NoThreat)
  {
    if d.analyzing || now - d.lastAnalysis < AnalysisSpacingMs then Gate(d, false)
    else if d.lastTrigger == NoThreat then Gate(d.(lastAnalysis := now, analyzing := true), true)
    else Gate(d.(lastAnalysis := now), false)
  }

  /** The analyzer's answer: forwarded unless it is NONE; the memo is not consulted or updated. */
  function FinishAnalysis(d: DetState, level: ThreatLevel): (st: Step)
    ensures !d.analyzing ==> st == Step(d, [])
    ensures d.analyzing ==> st.det == d.(analyzing := false)
    ensures d.analyzing ==> st.out == (if level == NoThreat then [] else [ThreatOut(level)])
  {
    if !d.analyzing then Step(d, [])
    else Step(d.(analyzing := false), if level == NoThreat then [] else [ThreatOut(level)])
  }

  /** Two accepted analyses are at least 2000 ms apart. */
  lemma AnalysesAreSpaced(d: DetState, t1: int, level: ThreatLevel, t2: int)
    requires StartAnalysis(d, t1).query
    ensures var d1 := FinishAnalysis(StartAnalysis(d, t1).det, level).det;
      StartAnalysis(d1, t2).query ==> t2 - t1 >= AnalysisSpacingMs
  {
  }

  // ---------------------------------------------------------------------
  // Escalation memo across a silence cycle
  // ---------------------------------------------------------------------

  datatype DetEvent =
    | Heard(results: seq<SpeechResult>, resultIndex: nat)
    | SilenceElapsed
    | Simulated(input: string, passive: bool, observed: bool)

  function ApplyEvent(d: DetState, e: DetEvent, safeword: string): Step {
    match e
    case Heard(rs, k) => OnResult(d, rs, k, safeword)
    case SilenceElapsed => Step(OnSilence(d), [])
    case Simulated(input, passive, observed) => Simulate(d, input, safeword, passive, observed)
  }

  /** Run a sequence of detector events, collecting every callback in order. */
  function Run(d: DetState, evs: seq<DetEvent>, safeword: string): Step
    decreases |evs|
  {
    if evs == [] then Step(d, [])
    else
      var first := ApplyEvent(d, evs[0], safeword);
      var rest := Run(first.det, evs[1..], safeword);
      Step(rest.det, first.out + rest.out)
  }

  function Threats(out: seq<Output>): seq<ThreatLevel> {
    if out == [] then []
    else (if out[0].ThreatOut? then [out[0].level] else []) + Threats(out[1..])
  }

  lemma {:induction false} ThreatsDistribute(a: seq<Output>, b: seq<Output>)
    ensures Threats(a + b) == Threats(a) + Threats(b)
    decreases |a|
  {
    if a == [] {
      assert a + b == b;
    } else {
      var ab := a + b;
      ConcatTail(a, b);
      var x: seq<ThreatLevel> := if a[0].ThreatOut? then [a[0].level] else [];
      ThreatsDistribute(a[1..], b);
      assert Threats(ab) == x + (Threats(a[1..]) + Threats(b));
      ConcatAssoc(x, Threats(a[1..]), Threats(b));
    }
  }

  predicate NoSilence(evs: seq<DetEvent>) {
    forall i :: 0 <= i < |evs| ==> !evs[i].SilenceElapsed?
  }

  /** Reported tiers strictly rise, all above `floor` and none above `ceiling`. */
  predicate Rising(ts: seq<ThreatLevel>, floor: nat, ceiling: nat) {
    && (forall i :: 0 <= i < |ts| ==> floor < Rank(ts[i]) <= ceiling)
    && (forall i, j :: 0 <= i < j < |ts| ==> Rank(ts[i]) < Rank(ts[j]))
  }

  /** A callback list made of broadcasts followed by one detection's report reports just that tier. */
  lemma ReportsOfDetection(shown: seq<Output>, det: Detection)
    requires forall i :: 0 <= i < |shown| ==> shown[i].TranscriptOut?
    requires |shown| <= 1
    ensures Threats(shown + ThreatOutputs(det)) == if det.emitted.Some? then [det.emitted.value] else []
  {
    ThreatsDistribute(shown, ThreatOutputs(det));
    if shown != [] {
      assert shown[1..] == [];
    }
    if det.emitted.Some? {
      assert ThreatOutputs(det)[1..] == [];
    }
  }

  lemma HeardReportsRising(d: DetState, rs: seq<SpeechResult>, k: nat, safeword: string)
    ensures var st := OnResult(d, rs, k, safeword);
      Rising(Threats(st.out), Rank(d.lastTrigger), Rank(st.det.lastTrigger))
  {
    var st := OnResult(d, rs, k, safeword);
    BroadcastThenReport(st.out, Rank(d.lastTrigger), Rank(st.det.lastTrigger));
  }

  /** A broadcast optionally followed by one report in range is a rising report sequence. */
  lemma BroadcastThenReport(out: seq<Output>, lo: nat, hi: nat)
    requires 1 <= |out| <= 2 && out[0].TranscriptOut?
    requires |out| == 2 ==> out[1].ThreatOut? && lo < Rank(out[1].level) <= hi
    ensures Rising(Threats(out), lo, hi)
  {
    assert Threats(out) == Threats(out[1..]);
    if |out| == 2 {
      assert out[1..][1..] == [];
      assert Threats(out[1..]) == [out[1].level] + Threats([]);
    } else {
      assert out[1..] == [];
    }
  }

  lemma SimulatedReportsRising(d: DetState, input: string, safeword: string, passive: bool, observed: bool)
    ensures var st := Simulate(d, input, safeword, passive, observed);
      Rising(Threats(st.out), Rank(d.lastTrigger), Rank(st.det.lastTrigger))
  {
    var st := Simulate(d, input, safeword, passive, observed);
    if input == [] {
    } else if Contains(ToLower(input), "stop") && observed {
      assert Threats(st.out) == [] + Threats([]);
    } else {
      var combined := d.history + " " + input;
      var shown: seq<Output> := if observed then [TranscriptOut(combined)] else [];
      if passive {
        ReportsOfDetection(shown, Detection(combined, d.lastTrigger, None));
        assert shown + [] == shown;
      } else {
        ReportsOfDetection(shown, DetectSafeWord(combined, d.lastTrigger, combined, safeword));
      }
    }
  }

  lemma StepReportsRising(d: DetState, e: DetEvent, safeword: string)
    requires !e.SilenceElapsed?
    ensures var st := ApplyEvent(d, e, safeword);
      Rank(st.det.lastTrigger) >= Rank(d.lastTrigger)
      && Rising(Threats(st.out), Rank(d.lastTrigger), Rank(st.det.lastTrigger))
  {
    match e
    case Heard(rs, k) => HeardReportsRising(d, rs, k, safeword);
    case Simulated(input, passive, observed) => SimulatedReportsRising(d, input, safeword, passive, observed);
  }

  /**
   * Between silence resets the memo never decreases, so each tier is reported
   * at most once and the reports come in rising order.
   */
  lemma {:induction false} OneReportPerTierPerCycle(d: DetState, evs: seq<DetEvent>, safeword: string)
    requires NoSilence(evs)
    ensures var r := Run(d, evs, safeword);
      Rank(r.det.lastTrigger) >= Rank(d.lastTrigger)
      && Rising(Threats(r.out), Rank(d.lastTrigger), Rank(r.det.lastTrigger))
    decreases |evs|
  {
    if evs != [] {
      var first := ApplyEvent(d, evs[0], safeword);
      StepReportsRising(d, evs[0], safeword);
      assert NoSilence(evs[1..]) by {
        forall i | 0 <= i < |evs[1..]| ensures !evs[1..][i].SilenceElapsed? {
          assert evs[1..][i] == evs[i + 1];
        }
      }
      OneReportPerTierPerCycle(first.det, evs[1..], safeword);
      var rest := Run(first.det, evs[1..], safeword);
      ThreatsDistribute(first.out, rest.out);
      RisingConcat(Threats(first.out), Threats(rest.out), Rank(d.lastTrigger), Rank(first.det.lastTrigger), Rank(rest.det.lastTrigger));
    }
  }

  lemma RisingConcat(a: seq<ThreatLevel>, b: seq<ThreatLevel>, lo: nat, mid: nat, hi: nat)
    requires Rising(a, lo, mid) && Rising(b, mid, hi) && lo <= mid <= hi
    ensures Rising(a + b, lo, hi)
  {
    var ts := a + b;
    forall i, j | 0 <= i < j < |ts| ensures Rank(ts[i]) < Rank(ts[j]) {
      if j < |a| {
      } else if i < |a| {
        assert ts[i] == a[i] && ts[j] == b[j - |a|];
      } else {
        assert ts[i] == b[i - |a|] && ts[j] == b[j - |a|];
      }
    }
    forall i | 0 <= i < |ts| ensures lo < Rank(ts[i]) <= hi {
      if i < |a| { assert ts[i] == a[i]; } else { assert ts[i] == b[i - |a|]; }
    }
  }

  // ---------------------------------------------------------------------
  // A DANGER report leaves the safe word in the history
  // ---------------------------------------------------------------------

  lemma LowerKeepsSpace(c: char)
    ensures IsSpace(LowerChar(c)) <==> IsSpace(c)
  {
  }

  lemma {:induction false} TrimStartLower(s: string)
    ensures ToLower(TrimStart(s)) == TrimStart(ToLower(s))
    decreases |s|
  {
    if s != [] {
      var ls := ToLower(s);
      assert ls[0] == LowerChar(s[0]);
      LowerKeepsSpace(s[0]);
      if IsSpace(s[0]) {
        assert TrimStart(s) == TrimStart(s[1..]);
        assert ls[1..] == ToLower(s[1..]);
        assert TrimStart(ls) == TrimStart(ls[1..]);
        TrimStartLower(s[1..]);
      } else {
        assert TrimStart(s) == s;
        assert TrimStart(ls) == ls;
      }
    }
  }

  lemma {:induction false} TrimEndLower(s: string)
    ensures ToLower(TrimEnd(s)) == TrimEnd(ToLower(s))
    decreases |s|
  {
    if s != [] {
      LowerKeepsSpace(s[|s| - 1]);
      if IsSpace(s[|s| - 1]) {
        TrimEndLower(s[..|s| - 1]);
        assert ToLower(s)[..|s| - 1] == ToLower(s[..|s| - 1]);
      }
    }
  }

  /** Lower-casing a trimmed text finds every safe word lower-casing the untrimmed text finds. */
  lemma TrimmedLowerKeepsWord(x: string, w: string)
    requires w != [] && !IsSpace(w[0]) && !IsSpace(w[|w| - 1])
    requires Contains(ToLower(x), ToLower(w))
    ensures Contains(ToLower(Trim(x)), ToLower(w))
  {
    var lx, lw := ToLower(x), ToLower(w);
    var p :| 0 <= p <= |lx| - |lw| && OccursAt(lx, lw, p);
    LowerKeepsSpace(w[0]);
    LowerKeepsSpace(w[|w| - 1]);
    TrimKeepsWord(lx, lw, p);
    TrimStartLower(x);
    TrimEndLower(TrimStart(x));
  }

  /** What one recognition event broadcasts: the trimmed committed history followed by the interim text. */
  lemma BroadcastOfResult(d: DetState, results: seq<SpeechResult>, resultIndex: nat, safeword: string)
    ensures var from := From(results, resultIndex);
      OnResult(d, results, resultIndex, safeword).out[0]
        == TranscriptOut(EffectiveText(AppendFinal(d.history, FinalText(from)), InterimText(from)))
  {
  }

  lemma CommittedWordSurvives(history: string, f: string, i: string, safeword: string)
    requires safeword != [] && !IsSpace(safeword[0]) && !IsSpace(safeword[|safeword| - 1])
    requires Contains(ToLower(history), ToLower(safeword))
    requires |history| + 1 + |f| <= HistoryLimit
    ensures Contains(ToLower(EffectiveText(AppendFinal(history, f), i)), ToLower(safeword))
  {
    var rest := if f == [] then " " + i else " " + f + " " + i;
    CommitThenInterim(history, f, i);
    PrefixWordSurvivesTrim(history, rest, safeword);
  }

  /** Without truncation, the committed history is a prefix of the text the next broadcast trims. */
  lemma CommitThenInterim(history: string, f: string, i: string)
    requires |history| + 1 + |f| <= HistoryLimit
    ensures EffectiveText(AppendFinal(history, f), i) == Trim(history + (if f == [] then " " + i else " " + f + " " + i))
  {
    var h := AppendFinal(history, f);
    if f != [] {
      assert h == history + " " + f;
      assert h + " " + i == history + (" " + f + " " + i);
    } else {
      assert h + " " + i == history + (" " + i);
    }
  }

  /** A safe word in a prefix survives lower-casing and trimming of the whole text. */
  lemma PrefixWordSurvivesTrim(history: string, rest: string, safeword: string)
    requires safeword != [] && !IsSpace(safeword[0]) && !IsSpace(safeword[|safeword| - 1])
    requires Contains(ToLower(history), ToLower(safeword))
    ensures Contains(ToLower(Trim(history + rest)), ToLower(safeword))
  {
    assert Contains(ToLower(history + rest), ToLower(safeword)) by {
      ContainsAppend(ToLower(history), ToLower(rest), ToLower(safeword));
      ToLowerConcat(history, rest);
    }
    TrimmedLowerKeepsWord(history + rest, safeword);
  }

  /**
   * When the committed history holds the safe word and the next final segment
   * does not push it out of the 300-character window, the next broadcast still
   * holds the safe word.
   */
  lemma NextBroadcastRepeatsHistoryWord(d: DetState, results: seq<SpeechResult>, resultIndex: nat, safeword: string)
    requires safeword != [] && !IsSpace(safeword[0]) && !IsSpace(safeword[|safeword| - 1])
    requires Contains(ToLower(d.history), ToLower(safeword))
    requires |d.history| + 1 + |FinalText(From(results, resultIndex))| <= HistoryLimit
    ensures var out := OnResult(d, results, resultIndex, safeword).out;
      out[0].TranscriptOut? && Contains(ToLower(out[0].text), ToLower(safeword))
  {
    var from := From(results, resultIndex);
    BroadcastOfResult(d, results, resultIndex, safeword);
    CommittedWordSurvives(d.history, FinalText(from), InterimText(from), safeword);
  }

  // ---------------------------------------------------------------------
  // The detector component's refs as an object
  // ---------------------------------------------------------------------

  /** A caption update followed by a history and trigger update is one record update. */
  lemma UpdatesCompose(before: DetState, mid: DetState, after: DetState, c: string, h: string, l: ThreatLevel)
    requires mid == before.(caption := c)
    requires after == mid.(history := h, lastTrigger := l)
    ensures after == before.(history := h, lastTrigger := l, caption := c)
  {
  }

  class SpeechDetector {
    var history: string
    var lastTrigger: ThreatLevel
    var caption: string
    var silenceArmed: bool
    var lastAnalysis: int
    var analyzing: bool

    function State(): DetState
      reads this
    {
      DetState(history, lastTrigger, caption, silenceArmed, lastAnalysis, analyzing)
    }

    /** A fresh mount: empty refs. */
    constructor ()
      ensures State() == InitialDet
    {
      history, lastTrigger, caption := "", NoThreat, "";
      silenceArmed, lastAnalysis, analyzing := false, 0, false;
    }

    /** detectSafeWordLocal: returns the tier reported through onThreatDetected, if any. */
    method DetectSafeWordLocal(text: string, safeword: string) returns (emitted: Option<ThreatLevel>)
      modifies this
      ensures var det := DetectSafeWord(old(history), old(lastTrigger), text, safeword);
        State() == old(State()).(history := det.history, lastTrigger := det.lastTrigger) && emitted == det.emitted
    {
      emitted := None;
      if safeword == [] {
        return;
      }
      var count := SafeWordCount(text, safeword);
      if count >= 3 {
        if lastTrigger != Critical {
          lastTrigger := Critical;
          emitted := Some(Critical);
          history := "";
        }
      } else if count == 2 {
        if lastTrigger != Danger && lastTrigger != Critical {
          lastTrigger := Danger;
          emitted := Some(Danger);
        }
      }
    }

    /** The history update of onresult: final speech appended after a space, then cut to 300 characters. */
    method CommitFinal(finalText: string)
      modifies this
      ensures State() == old(State()).(history := AppendFinal(old(history), finalText))
    {
      if finalText != [] {
        history := history + " " + finalText;
        if |history| > HistoryLimit {
          history := TakeLast(history, HistoryLimit);
        }
      }
    }

    /** recognition.onresult: the callbacks it makes, in the order it makes them. */
    method HandleResult(results: seq<SpeechResult>, resultIndex: nat, safeword: string) returns (out: seq<Output>)
      modifies this
      ensures Step(State(), out) == OnResult(old(State()), results, resultIndex, safeword)
    {
      ghost var before := State();
      silenceArmed := true;
      var finalText, interimText := CollectResults(results, resultIndex);
      CommitFinal(finalText);
      ghost var h := history;
      out := BroadcastAndDetect(interimText, safeword);
      OnResultIs(before, results, resultIndex, safeword, h, EffectiveText(h, interimText),
                 DetectSafeWord(h, before.lastTrigger, EffectiveText(h, interimText), safeword));
    }

    /** The rest of onresult once the history is committed: broadcast, caption, local detection. */
    method BroadcastAndDetect(interimText: string, safeword: string) returns (out: seq<Output>)
      modifies this
      ensures var eff := EffectiveText(old(history), interimText);
        var det := DetectSafeWord(old(history), old(lastTrigger), eff, safeword);
        && State() == old(State()).(history := det.history, lastTrigger := det.lastTrigger, caption := TakeLast(eff, CaptionLimit))
        && out == [TranscriptOut(eff)] + ThreatOutputs(det)
    {
      ghost var before := State();
      var effectiveText := CurrentText(interimText);
      ShowCaption(effectiveText);
      ghost var mid := State();
      var threats := ReportLocal(effectiveText, safeword);
      out := [TranscriptOut(effectiveText)] + threats;
      ghost var det := DetectSafeWord(before.history, before.lastTrigger, effectiveText, safeword);
      UpdatesCompose(before, mid, State(), TakeLast(effectiveText, CaptionLimit), det.history, det.lastTrigger);
    }

    /** The text broadcast for this result: the committed history followed by the interim speech, trimmed. */
    method CurrentText(interimText: string) returns (effectiveText: string)
      ensures effectiveText == EffectiveText(history, interimText)
    {
      effectiveText := Trim(history + " " + interimText);
    }

    /** Local detection on the effective text, with the threat report it produces, if any. */
    method ReportLocal(effectiveText: string, safeword: string) returns (threats: seq<Output>)
      modifies this
      ensures var det := DetectSafeWord(old(history), old(lastTrigger), effectiveText, safeword);
        && State() == old(State()).(history := det.history, lastTrigger := det.lastTrigger)
        && threats == ThreatOutputs(det)
    {
      var emitted := DetectSafeWordLocal(effectiveText, safeword);
      threats := if emitted.Some? then [ThreatOut(emitted.value)] else [];
    }

    /** The caption shows the last 100 characters of the effective text. */
    method ShowCaption(effectiveText: string)
      modifies this
      ensures State() == old(State()).(caption := TakeLast(effectiveText, CaptionLimit))
    {
      var shown := TakeLast(effectiveText, CaptionLimit);
      caption := shown;
    }

    /** The 5 s silence timeout. */
    method SilenceElapsed()
      modifies this
      ensures State() == OnSilence(old(State()))
    {
      if silenceArmed {
        history := "";
        lastTrigger := NoThreat;
        caption := "";
        silenceArmed := false;
      }
    }

    method HandleSimulation(input: string, safeword: string, passive: bool, observed: bool) returns (out: seq<Output>)
      modifies this
      ensures Step(State(), out) == Simulate(old(State()), input, safeword, passive, observed)
    {
      out := [];
      if input == [] {
        return;
      }
      if Contains(ToLower(input), "stop") && observed {
        out := [TranscriptOut(input)];
      } else {
        history := history + " " + input;
        var combined := history;
        if observed {
          out := [TranscriptOut(combined)];
        }
        if !passive {
          var emitted := DetectSafeWordLocal(combined, safeword);
          if emitted.Some? {
            out := out + [ThreatOut(emitted.value)];
          }
        }
      }
    }

    /** handleAnalysis before the await: whether the remote analyzer is queried. */
    method BeginAnalysis(now: int) returns (query: bool)
      modifies this
      ensures Gate(State(), query) == StartAnalysis(old(State()), now)
    {
      query := false;
      if analyzing || now - lastAnalysis < AnalysisSpacingMs {
        return;
      }
      lastAnalysis := now;
      if lastTrigger == NoThreat {
        analyzing := true;
        query := true;
      }
    }

    /** handleAnalysis after the await: the analyzer's tier, forwarded unless NONE. */
    method EndAnalysis(level: ThreatLevel) returns (out: seq<Output>)
      modifies this
      ensures Step(State(), out) == FinishAnalysis(old(State()), level)
    {
      out := [];
      if analyzing {
        analyzing := false;
        if level != NoThreat {
          out := [ThreatOut(level)];
        }
      }
    }
  }
}
