/**
 * The application shell (App.tsx): AppContent picks the screen from the
 * store's mode, and GlobalGuardian keeps the background speech detector
 * mounted while the app is armed, feeding its callbacks into the guardian's
 * handlers. The whole system is one value stepped by serialised events:
 * speech results, timer expiries and the presses each screen offers.
 */
module App {
  import opened Types
  import opened Text
  import opened SafetyContext
  import opened Guardian
  import Detector
  import Calculator
  import SetupWizard

  // ---------------------------------------------------------------------
  // Routing
  // ---------------------------------------------------------------------

  datatype Screen = SetupScreen | EmergencyView | CalculatorView | DashboardView

  /** getComponent: one screen per mode; PRE_ALERT shares the dashboard. */
  function GetComponent(m: AppMode): (sc: Screen)
    ensures sc == SetupScreen <==> m == Onboarding
    ensures sc == EmergencyView <==> m == Emergency
    ensures sc == CalculatorView <==> m == Discreet
    ensures sc == DashboardView <==> m == Dashboard || m == PreAlert
  {
    match m
    case Onboarding => SetupScreen
    case Emergency => EmergencyView
    case Discreet => CalculatorView
    case Dashboard => DashboardView
    case PreAlert => DashboardView
  }

  /** The detector listens only behind the dashboard or the calculator, never on the setup or emergency screens. */
  lemma ArmedScreens(p: UserProfile, m: AppMode)
    ensures IsArmed(p, m) ==> GetComponent(m) in {DashboardView, CalculatorView}
    ensures GetComponent(m) in {SetupScreen, EmergencyView} ==> !IsArmed(p, m)
    ensures p.isSetupComplete && GetComponent(m) in {DashboardView, CalculatorView} ==> IsArmed(p, m)
  {
  }

  // ---------------------------------------------------------------------
  // The whole system as a value
  // ---------------------------------------------------------------------

  /** The store, GlobalGuardian's refs and timer, and the background detector's refs. */
  datatype Sys = Sys(store: Store, guard: Guard, det: Detector.DetState)

  predicate Armed(sys: Sys) {
    IsArmed(sys.store.profile, sys.store.mode)
  }

  /** The provider mounts, restores the saved profile and reads the launch parameter. */
  function Boot(saved: Option<UserProfile>, trigger: Option<string>): (sys: Sys)
    ensures sys.store.profile == (if saved.Some? then saved.value else DefaultUser)
    ensures sys.store.guardian == Monitoring && sys.guard == InitialGuard && sys.det == Detector.InitialDet
  {
    Sys(ApplyStartup(InitialStore(), saved, trigger), InitialGuard, Detector.InitialDet)
  }

  /** The result of one event: the next system and the alarm method dispatched, if any. */
  datatype Transition = Transition(sys: Sys, dispatched: Option<SosMethod>)

  /**
   * The detector's callbacks reach the guardian in the order they are made:
   * onTranscript first, then onThreatDetected. Each handler reads the state
   * left by the previous one.
   */
  function Deliver(s: Store, gd: Guard, out: seq<Detector.Output>): (r: Reaction)
    ensures r.store.profile == s.profile
    ensures r.store.mode == s.mode || r.store.mode == Emergency
    ensures r.store.mode != s.mode ==> r.dispatched.Some?
    ensures r.dispatched.Some? ==> r.store.mode == Emergency && r.dispatched.value in {VoiceSos, VoiceSilent}
    ensures out == [] ==> r == Reaction(s, gd, None)
    decreases |out|
  {
    if out == [] then Reaction(s, gd, None)
    else
      var first := match out[0]
        case TranscriptOut(text) => OnTranscript(s, gd, text)
        case ThreatOut(level) => OnThreat(s, gd, level);
      var rest := Deliver(first.store, first.guard, out[1..]);
      Reaction(rest.store, rest.guard, if first.dispatched.Some? then first.dispatched else rest.dispatched)
  }

  /** GlobalGuardian re-renders: the detector stays mounted only while the app is armed. */
  function Mount(r: Reaction, det: Detector.DetState): (t: Transition)
    ensures t.sys.store == r.store && t.sys.guard == r.guard && t.dispatched == r.dispatched
    ensures IsArmed(r.store.profile, r.store.mode) ==> t.sys.det == det
    ensures !IsArmed(r.store.profile, r.store.mode) ==> t.sys.det == Detector.InitialDet
  {
    Transition(Sys(r.store, r.guard, if IsArmed(r.store.profile, r.store.mode) then det else Detector.InitialDet), r.dispatched)
  }

  /** A store update from a screen, followed by the timer effect and the re-render. */
  function Commit(sys: Sys, next: Store, dispatched: Option<SosMethod>): Transition {
    Mount(Settle(sys.store.guardian, Reaction(next, sys.guard, dispatched)), sys.det)
  }

  /** onresult of the background detector, with the guardian's handlers as its callbacks. */
  function Hear(sys: Sys, results: seq<Detector.SpeechResult>, resultIndex: nat): Transition {
    if !Armed(sys) then Transition(sys, None)
    else
      var st := Detector.OnResult(sys.det, results, resultIndex, sys.store.profile.safeword);
      Mount(Deliver(sys.store, sys.guard, st.out), st.det)
  }

  datatype Event =
    | Heard(results: seq<Detector.SpeechResult>, resultIndex: nat)
    | ListeningChanged(listening: bool)
    | SilenceElapsed
    | AutoConfirmElapsed
    | LatchElapsed
    | SosButton
    | OpenDiscreet
    | OpenSettings
    | CancelManual
    | CalculatorCode(outcome: Calculator.Outcome)
    | Deactivate
    | SetupFinished(profile: UserProfile)

  /**
   * One serialised event. A press is honoured only on the screen that shows
   * its button; on the dashboard the verification overlay covers every
   * button but "Cancel Manual".
   */
  function Step(sys: Sys, e: Event): Transition {
    var screen := GetComponent(sys.store.mode);
    var dashboardFree := screen == DashboardView && sys.store.guardian == Monitoring;
    var idle := Transition(sys, None);
    match e
    case Heard(results, resultIndex) => Hear(sys, results, resultIndex)
    case ListeningChanged(on) =>
      // Only a mounted detector starts listening; "stopped" also comes from
      // the clean-up of a detector that was just unmounted.
      if on && !Armed(sys) then idle
      else Transition(sys.(store := ApplyUpdateAudioState(sys.store, on, if on then "Listening..." else "Paused")), None)
    case SilenceElapsed =>
      if Armed(sys) then Transition(sys.(det := Detector.OnSilence(sys.det)), None) else idle
    case AutoConfirmElapsed => Mount(OnTimeout(sys.store, sys.guard), sys.det)
    case LatchElapsed => Mount(OnLatchElapsed(sys.store, sys.guard), sys.det)
    case SosButton =>
      if dashboardFree then Commit(sys, ApplyTriggerSos(sys.store, ButtonPress), Some(ButtonPress)) else idle
    case OpenDiscreet =>
      if dashboardFree then Commit(sys, sys.store.(mode := Discreet), None) else idle
    case OpenSettings =>
      if dashboardFree then Commit(sys, sys.store.(mode := Onboarding), None) else idle
    case CancelManual =>
      if screen == DashboardView && sys.store.guardian != Monitoring
      then Mount(OnCancelManual(sys.store, sys.guard), sys.det) else idle
    case CalculatorCode(o) =>
      if screen != CalculatorView then idle
      else (match o
        case Trigger => Commit(sys, ApplyTriggerSos(sys.store, DiscreetCode), Some(DiscreetCode))
        case Exit => Commit(sys, sys.store.(mode := Dashboard), None)
        case Show(_) => idle)
    case Deactivate =>
      if screen == EmergencyView then Commit(sys, ApplyCancelSos(sys.store), None) else idle
    case SetupFinished(p) =>
      if screen == SetupScreen then Commit(sys, ApplyUpdateUserProfile(sys.store, p), None) else idle
  }

  function Run(sys: Sys, evs: seq<Event>): Sys
    decreases |evs|
  {
    if evs == [] then sys else Run(Step(sys, evs[0]).sys, evs[1..])
  }

  // ---------------------------------------------------------------------
  // Invariants of every reachable system
  // ---------------------------------------------------------------------

  /**
   * One pending timeout per verifying state and none while monitoring; the
   * detector's refs are fresh whenever it is unmounted; the committed
   * history stays within its window.
   */
  predicate Inv(sys: Sys) {
    && TimerInvariant(sys.store, sys.guard)
    && (!Armed(sys) ==> sys.det == Detector.InitialDet)
    && |sys.det.history| <= Detector.HistoryLimit
  }

  lemma BootIsConsistent(saved: Option<UserProfile>, trigger: Option<string>)
    ensures Inv(Boot(saved, trigger))
  {
  }

  /** A broadcast alone reaches only handleTranscript. */
  lemma DeliverTranscript(s: Store, gd: Guard, text: string)
    ensures Deliver(s, gd, [Detector.TranscriptOut(text)]) == OnTranscript(s, gd, text)
  {
    assert [Detector.TranscriptOut(text)][1..] == [];
  }

  /** A broadcast and a report: the report is handled in the state the transcript left. */
  lemma DeliverTranscriptThenThreat(s: Store, gd: Guard, text: string, level: ThreatLevel)
    ensures var r1 := OnTranscript(s, gd, text);
      var r2 := OnThreat(r1.store, r1.guard, level);
      Deliver(s, gd, [Detector.TranscriptOut(text), Detector.ThreatOut(level)]) == Reaction(r2.store, r2.guard, r1.dispatched)
  {
    var out := [Detector.TranscriptOut(text), Detector.ThreatOut(level)];
    var r1 := OnTranscript(s, gd, text);
    assert out[1..] == [Detector.ThreatOut(level)];
    assert out[1..][1..] == [];
    assert Deliver(r1.store, r1.guard, out[1..]) == OnThreat(r1.store, r1.guard, level);
  }

  lemma {:induction false} DeliverKeepsTimerInvariant(s: Store, gd: Guard, out: seq<Detector.Output>)
    requires TimerInvariant(s, gd)
    ensures var r := Deliver(s, gd, out); TimerInvariant(r.store, r.guard)
    decreases |out|
  {
    if out != [] {
      var first := match out[0]
        case TranscriptOut(text) => OnTranscript(s, gd, text)
        case ThreatOut(level) => OnThreat(s, gd, level);
      match out[0] {
        case TranscriptOut(text) => HandlersKeepTimerInvariant(s, gd, NoThreat, text);
        case ThreatOut(level) => HandlersKeepTimerInvariant(s, gd, level, "");
      }
      assert TimerInvariant(first.store, first.guard);
      DeliverKeepsTimerInvariant(first.store, first.guard, out[1..]);
      var rest := Deliver(first.store, first.guard, out[1..]);
      assert Deliver(s, gd, out).store == rest.store && Deliver(s, gd, out).guard == rest.guard;
    }
  }

  lemma HearKeepsInv(sys: Sys, results: seq<Detector.SpeechResult>, resultIndex: nat)
    requires Inv(sys)
    ensures Inv(Hear(sys, results, resultIndex).sys)
  {
    if Armed(sys) {
      var st := Detector.OnResult(sys.det, results, resultIndex, sys.store.profile.safeword);
      Detector.HistoryStaysBounded(sys.det, results, resultIndex, sys.store.profile.safeword);
      DeliverKeepsTimerInvariant(sys.store, sys.guard, st.out);
    }
  }

  /** Every event keeps the system invariant. */
  lemma StepKeepsInv(sys: Sys, e: Event)
    requires Inv(sys)
    ensures Inv(Step(sys, e).sys)
  {
    match e
    case Heard(results, resultIndex) => HearKeepsInv(sys, results, resultIndex);
    case SilenceElapsed => Detector.HistoryStaysBounded(sys.det, [], 0, "");
    case AutoConfirmElapsed => HandlersKeepTimerInvariant(sys.store, sys.guard, NoThreat, "");
    case CancelManual => HandlersKeepTimerInvariant(sys.store, sys.guard, NoThreat, "");
    case _ =>
  }

  lemma {:induction false} RunKeepsInv(sys: Sys, evs: seq<Event>)
    requires Inv(sys)
    ensures Inv(Run(sys, evs))
    decreases |evs|
  {
    if evs != [] {
      StepKeepsInv(sys, evs[0]);
      RunKeepsInv(Step(sys, evs[0]).sys, evs[1..]);
    }
  }

  // ---------------------------------------------------------------------
  // How the emergency screen is entered and left
  // ---------------------------------------------------------------------

  /**
   * Emergency mode is entered only through triggerSOS, and each alarm method
   * comes from its own source: the SOS button, the calculator code, a spoken
   * confirmation, or the auto-confirm timeout.
   */
  lemma DispatchSources(sys: Sys, e: Event)
    ensures var t := Step(sys, e);
      && (t.dispatched.Some? ==> t.sys.store.mode == Emergency)
      && (sys.store.mode != Emergency && t.sys.store.mode == Emergency ==> t.dispatched.Some?)
      && (t.dispatched == Some(ButtonPress) ==> e == SosButton)
      && (t.dispatched == Some(DiscreetCode) ==> e == CalculatorCode(Calculator.Trigger))
      && (t.dispatched in {Some(VoiceSos), Some(VoiceSilent)} ==> e.Heard?)
      && (t.dispatched in {Some(AutoTimeoutSos), Some(AutoTimeoutSilent)} ==> e == AutoConfirmElapsed)
  {
    match e {
      case Heard(results, resultIndex) => HeardSources(sys, results, resultIndex);
      case AutoConfirmElapsed => TimerSources(sys, e);
      case LatchElapsed => TimerSources(sys, e);
      case CancelManual => TimerSources(sys, e);
      case _ => ScreenSources(sys, e);
    }
  }

  /** A recognition result dispatches only a voice method. */
  lemma HeardSources(sys: Sys, results: seq<Detector.SpeechResult>, resultIndex: nat)
    ensures var t := Step(sys, Heard(results, resultIndex));
      && (t.dispatched.Some? ==> t.sys.store.mode == Emergency && t.dispatched.value in {VoiceSos, VoiceSilent})
      && (sys.store.mode != Emergency && t.sys.store.mode == Emergency ==> t.dispatched.Some?)
  {
  }

  /** The timeout dispatches only its own method; the latch and the manual cancel dispatch nothing. */
  lemma TimerSources(sys: Sys, e: Event)
    requires e == AutoConfirmElapsed || e == LatchElapsed || e == CancelManual
    ensures var t := Step(sys, e);
      && (t.dispatched.Some? ==> t.sys.store.mode == Emergency && e == AutoConfirmElapsed)
      && (t.dispatched.Some? ==> t.dispatched.value in {AutoTimeoutSos, AutoTimeoutSilent})
      && (sys.store.mode != Emergency && t.sys.store.mode == Emergency ==> t.dispatched.Some?)
  {
  }

  /** A press on a screen dispatches only the method of its button. */
  lemma ScreenSources(sys: Sys, e: Event)
    requires !e.Heard? && e != AutoConfirmElapsed && e != LatchElapsed && e != CancelManual
    ensures var t := Step(sys, e);
      && (t.dispatched.Some? ==> t.sys.store.mode == Emergency)
      && (sys.store.mode != Emergency && t.sys.store.mode == Emergency ==> t.dispatched.Some?)
      && (t.dispatched == Some(ButtonPress) ==> e == SosButton)
      && (t.dispatched == Some(DiscreetCode) ==> e == CalculatorCode(Calculator.Trigger))
      && (t.dispatched.Some? ==> t.dispatched.value in {ButtonPress, DiscreetCode})
  {
  }

  /** Once in emergency mode, only the deactivation on the emergency screen leaves it. */
  lemma OnlyDeactivateLeavesEmergency(sys: Sys, e: Event)
    requires sys.store.mode == Emergency
    ensures Step(sys, e).sys.store.mode != Emergency ==> e == Deactivate
    ensures e == Deactivate ==> Step(sys, e).sys.store.mode == Dashboard
  {
  }

  /** The SOS button on an uncovered dashboard dispatches at once. */
  lemma SosButtonDispatches(sys: Sys)
    requires GetComponent(sys.store.mode) == DashboardView && sys.store.guardian == Monitoring
    ensures var t := Step(sys, SosButton);
      t.dispatched == Some(ButtonPress) && t.sys.store.mode == Emergency && !Armed(t.sys)
  {
  }

  /** An alarm code on the calculator dispatches even while a verification is pending. */
  lemma DiscreetCodeDispatches(sys: Sys)
    requires sys.store.mode == Discreet && Inv(sys)
    ensures var t := Step(sys, CalculatorCode(Calculator.Trigger));
      && t.dispatched == Some(DiscreetCode) && t.sys.store.mode == Emergency
      && t.sys.store.guardian == Monitoring && t.sys.guard.timer == Disarmed
  {
  }

  /**
   * Behind the calculator there is no overlay: a pending verification ends
   * only by voice, by the timeout or by an alarm code, never by a press of
   * "Cancel Manual".
   */
  lemma DiscreetVerificationHasNoManualCancel(sys: Sys, e: Event)
    requires sys.store.mode == Discreet && sys.store.guardian != Monitoring
    requires Step(sys, e).sys.store.guardian == Monitoring
    ensures e.Heard? || e == AutoConfirmElapsed || e == CalculatorCode(Calculator.Trigger)
  {
  }

  /**
   * Finishing the setup wizard, whatever was typed on the way, opens the
   * dashboard and arms the detector with fresh refs.
   */
  lemma FinishingSetupArms(sys: Sys, evs: seq<SetupWizard.WizardEvent>)
    requires Inv(sys) && sys.store.mode == Onboarding
    requires SetupWizard.FinishedProfile(SetupWizard.Run(SetupWizard.Open(sys.store.profile), evs)).Some?
    ensures var q := SetupWizard.FinishedProfile(SetupWizard.Run(SetupWizard.Open(sys.store.profile), evs)).value;
      var t := Step(sys, SetupFinished(q));
      && t.sys.store.mode == Dashboard && t.sys.store.profile == q && q.safeword != []
      && Armed(t.sys) && t.sys.det == Detector.InitialDet && t.dispatched == None
  {
    SetupWizard.FinishedProfileIsUsable(sys.store.profile, evs, sys.store);
  }

  // ---------------------------------------------------------------------
  // Voice escalation through the whole pipeline
  // ---------------------------------------------------------------------

  /**
   * The DANGER report leaves the safe word in the committed history, so while
   * a verification is pending the very next recognition result confirms it,
   * whatever was said, "stop" included (the safe-word check runs before the
   * cancel check).
   */
  lemma HistoryWordConfirmsNextResult(sys: Sys, results: seq<Detector.SpeechResult>, resultIndex: nat)
    requires Armed(sys) && sys.store.guardian != Monitoring && !sys.guard.processing
    requires var w := sys.store.profile.safeword; w != [] && !IsSpace(w[0]) && !IsSpace(w[|w| - 1])
    requires Contains(ToLower(sys.det.history), ToLower(sys.store.profile.safeword))
    requires |sys.det.history| + 1 + |Detector.FinalText(Detector.From(results, resultIndex))| <= Detector.HistoryLimit
    ensures var t := Step(sys, Heard(results, resultIndex));
      && t.dispatched == Some(if sys.store.guardian == VerifyingSos then VoiceSos else VoiceSilent)
      && t.sys.store.mode == Emergency
  {
    var sw := sys.store.profile.safeword;
    var st := Detector.OnResult(sys.det, results, resultIndex, sw);
    assert Step(sys, Heard(results, resultIndex)) == Mount(Deliver(sys.store, sys.guard, st.out), st.det);
    Detector.NextBroadcastRepeatsHistoryWord(sys.det, results, resultIndex, sw);
    var text := st.out[0].text;
    ConfirmationWinsOverCancel(sys.store, sys.guard, text);
    if |st.out| == 1 {
      assert st.out == [Detector.TranscriptOut(text)];
      DeliverTranscript(sys.store, sys.guard, text);
    } else {
      assert st.out == [Detector.TranscriptOut(text), Detector.ThreatOut(st.out[1].level)];
      DeliverTranscriptThenThreat(sys.store, sys.guard, text, st.out[1].level);
    }
  }

  /** A word that the trimming of the broadcast cannot touch. */
  predicate Unpadded(w: string) {
    w != [] && !IsSpace(w[0]) && !IsSpace(w[|w| - 1])
  }

  /** The text broadcast for one final segment heard after an empty history. */
  lemma FirstSegmentBroadcast(text: string)
    requires Unpadded(text) && |text| < Detector.HistoryLimit
    ensures var rs := [Detector.SpeechResult(true, text)];
      && Detector.FinalText(Detector.From(rs, 0)) == text
      && Detector.InterimText(Detector.From(rs, 0)) == []
      && Detector.AppendFinal("", text) == " " + text
      && Detector.EffectiveText(" " + text, []) == text
  {
    var rs := [Detector.SpeechResult(true, text)];
    assert Detector.FinalText(Detector.From(rs, 0)) == text && Detector.InterimText(Detector.From(rs, 0)) == [] by {
      assert Detector.From(rs, 0) == rs && rs[1..] == [];
    }
    assert Detector.AppendFinal("", text) == " " + text by {
      assert "" + " " + text == " " + text;
    }
    assert Detector.EffectiveText(" " + text, []) == text by {
      assert " " + text + " " + [] == " " + text + " ";
      TrimOfPadded(text);
    }
  }

  /** Two spoken safe words on a fresh detector report DANGER and stay in the history. */
  lemma TwiceReportsDanger(w: string)
    requires Unpadded(w) && 2 * |w| + 2 < Detector.HistoryLimit
    ensures Detector.OnResult(Detector.InitialDet, [Detector.SpeechResult(true, w + " " + w)], 0, w)
      == Detector.Step(
           Detector.InitialDet.(history := " " + (w + " " + w), lastTrigger := Danger,
                                caption := TakeLast(w + " " + w, Detector.CaptionLimit), silenceArmed := true),
           [Detector.TranscriptOut(w + " " + w), Detector.ThreatOut(Danger)])
  {
    var said := w + " " + w;
    var rs := [Detector.SpeechResult(true, said)];
    var h := " " + said;
    assert Unpadded(said) by {
      assert said[0] == w[0] && said[|said| - 1] == w[|w| - 1];
    }
    FirstSegmentBroadcast(said);
    assert Detector.DetectSafeWord(h, NoThreat, said, w) == Detector.Detection(h, Danger, Some(Danger)) by {
      Detector.CountSpokenRepetitions(w);
      Detector.DetectionTiers(h, NoThreat, said, w);
    }
    Detector.OnResultSteps(Detector.InitialDet, rs, 0, w);
  }

  /** The dashboard, armed and monitoring, before anything is heard. */
  function QuietDashboard(p: UserProfile): Sys {
    Sys(Store(Dashboard, p, Monitoring, true, ""), InitialGuard, Detector.InitialDet)
  }

  /** The state two spoken safe words leave behind. */
  function AfterTwice(p: UserProfile): Sys {
    var w := p.safeword;
    Sys(Store(Dashboard, p, VerifyingSilent, true, w + " " + w), Guard(false, ArmedFor(VerifyingSilent)),
        Detector.InitialDet.(history := " " + (w + " " + w), lastTrigger := Danger,
                             caption := TakeLast(w + " " + w, Detector.CaptionLimit), silenceArmed := true))
  }

  /** An armed system hands the detector's outputs to the guardian and keeps the detector's new refs. */
  lemma HeardWhileArmed(sys: Sys, results: seq<Detector.SpeechResult>, resultIndex: nat, st: Detector.Step)
    requires Armed(sys) && Detector.OnResult(sys.det, results, resultIndex, sys.store.profile.safeword) == st
    requires IsArmed(Deliver(sys.store, sys.guard, st.out).store.profile, Deliver(sys.store, sys.guard, st.out).store.mode)
    ensures Step(sys, Heard(results, resultIndex)) == Transition(
      Sys(Deliver(sys.store, sys.guard, st.out).store, Deliver(sys.store, sys.guard, st.out).guard, st.det),
      Deliver(sys.store, sys.guard, st.out).dispatched)
  {
  }

  /** While monitoring, a broadcast followed by a DANGER report opens a silent verification and arms its timeout. */
  lemma MonitoringDangerReport(s: Store, gd: Guard, text: string)
    requires s.guardian == Monitoring && TimerInvariant(s, gd)
    ensures Deliver(s, gd, [Detector.TranscriptOut(text), Detector.ThreatOut(Danger)])
      == Reaction(s.(isListening := true, lastTranscript := text, guardian := VerifyingSilent),
                  gd.(timer := ArmedFor(VerifyingSilent)), None)
  {
    DeliverTranscriptThenThreat(s, gd, text, Danger);
    MonitoringTranscriptOnlyUpdatesAudio(s, gd, text);
  }

  /** Saying the safe word twice on the dashboard raises a silent verification. */
  lemma TwiceRaisesVerification(p: UserProfile)
    requires p.isSetupComplete && Unpadded(p.safeword) && 2 * |p.safeword| + 2 < Detector.HistoryLimit
    ensures Step(QuietDashboard(p), Heard([Detector.SpeechResult(true, p.safeword + " " + p.safeword)], 0))
      == Transition(AfterTwice(p), None)
  {
    var w := p.safeword;
    var s0 := QuietDashboard(p);
    var rs := [Detector.SpeechResult(true, w + " " + w)];
    var out := [Detector.TranscriptOut(w + " " + w), Detector.ThreatOut(Danger)];
    TwiceReportsDanger(w);
    MonitoringDangerReport(s0.store, s0.guard, w + " " + w);
    HeardWhileArmed(s0, rs, 0, Detector.Step(AfterTwice(p).det, out));
  }

  /** After that, whatever is said next (within the history window) sends the silent alert. */
  lemma AnythingConfirmsAfterTwice(p: UserProfile, next: string)
    requires p.isSetupComplete && Unpadded(p.safeword) && 2 * |p.safeword| + 2 < Detector.HistoryLimit
    requires 2 * |p.safeword| + 3 + |next| <= Detector.HistoryLimit
    ensures var t := Step(AfterTwice(p), Heard([Detector.SpeechResult(true, next)], 0));
      t.dispatched == Some(VoiceSilent) && t.sys.store.mode == Emergency
  {
    var w := p.safeword;
    var sys1 := AfterTwice(p);
    var rs := [Detector.SpeechResult(true, next)];
    var h := " " + (w + " " + w);
    assert sys1.det.history == h && sys1.store.profile == p;
    assert Armed(sys1) && sys1.store.guardian == VerifyingSilent && !sys1.guard.processing;
    assert Contains(ToLower(h), ToLower(w)) by {
      assert h[1..1 + |w|] == w;
      assert OccursAt(h, w, 1);
      ContainsLower(h, w);
    }
    assert |Detector.FinalText(Detector.From(rs, 0))| == |next| by {
      assert Detector.From(rs, 0) == rs && rs[1..] == [];
    }
    HistoryWordConfirmsNextResult(sys1, rs, 0);
  }

  /**
   * Saying the safe word twice, then "stop": the stop sends the silent alert
   * instead of cancelling the verification.
   */
  lemma StopAfterDangerConfirms(p: UserProfile)
    requires p.isSetupComplete && Unpadded(p.safeword) && |p.safeword| < 100
    ensures var t1 := Step(QuietDashboard(p), Heard([Detector.SpeechResult(true, p.safeword + " " + p.safeword)], 0));
      var t2 := Step(t1.sys, Heard([Detector.SpeechResult(true, "stop")], 0));
      && t1.sys.store.guardian == VerifyingSilent && t1.dispatched == None
      && IsCancelPhrase(ToLower("stop"))
      && t2.dispatched == Some(VoiceSilent) && t2.sys.store.mode == Emergency
  {
    TwiceRaisesVerification(p);
    AnythingConfirmsAfterTwice(p, "stop");
    StopIsCancelPhrase();
  }

  lemma StopIsCancelPhrase()
    ensures IsCancelPhrase(ToLower("stop"))
  {
    var t := "stop";
    assert t[1..] == "top" && t[1..][1..] == "op" && t[1..][1..][1..] == "p" && t[1..][1..][1..][1..] == [];
    assert ToLower("p") == "p";
    assert ToLower("op") == "op";
    assert ToLower("top") == "top";
    assert ToLower(t) == t;
    assert OccursAt(t, t, 0);
  }

  /**
   * Saying the safe word a third time during a silent verification confirms
   * it, and the same result then reports CRITICAL to a guardian that is back
   * in MONITORING: the emergency screen opens with an SOS verification and
   * its timeout pending.
   */
  lemma ThirdWordConfirmsAndRearms(sys: Sys, results: seq<Detector.SpeechResult>, resultIndex: nat)
    requires Inv(sys) && Armed(sys) && sys.store.guardian == VerifyingSilent && !sys.guard.processing
    requires sys.det.lastTrigger == Danger && sys.store.profile.safeword != []
    requires var from := Detector.From(results, resultIndex);
      var eff := Detector.EffectiveText(Detector.AppendFinal(sys.det.history, Detector.FinalText(from)), Detector.InterimText(from));
      Detector.SafeWordCount(eff, sys.store.profile.safeword) >= 3
    ensures var t := Step(sys, Heard(results, resultIndex));
      && t.dispatched == Some(VoiceSilent)
      && t.sys.store.mode == Emergency
      && t.sys.store.guardian == VerifyingSos
      && t.sys.guard.timer == ArmedFor(VerifyingSos)
  {
    var sw := sys.store.profile.safeword;
    var from := Detector.From(results, resultIndex);
    var eff := Detector.EffectiveText(Detector.AppendFinal(sys.det.history, Detector.FinalText(from)), Detector.InterimText(from));
    var st := Detector.OnResult(sys.det, results, resultIndex, sw);
    assert Step(sys, Heard(results, resultIndex)) == Mount(Deliver(sys.store, sys.guard, st.out), st.det);
    Detector.ThirdWordReportsCritical(sys.det, results, resultIndex, sw);
    SafeWordThenCritical(sys.store, sys.guard, eff);
  }

  /** A transcript confirming a silent verification, then a CRITICAL report. */
  lemma SafeWordThenCritical(s: Store, gd: Guard, text: string)
    requires s.guardian == VerifyingSilent && !gd.processing
    requires Contains(ToLower(text), ToLower(s.profile.safeword))
    ensures var r := Deliver(s, gd, [Detector.TranscriptOut(text), Detector.ThreatOut(Critical)]);
      && r.dispatched == Some(VoiceSilent)
      && r.store.mode == Emergency
      && r.store.guardian == VerifyingSos
      && r.guard.timer == ArmedFor(VerifyingSos)
  {
    DeliverTranscriptThenThreat(s, gd, text, Critical);
    ConfirmationWinsOverCancel(s, gd, text);
  }

  /**
   * After that, deactivating the emergency within the timeout is undone: the
   * dashboard opens under the SOS overlay and the expiry dispatches again.
   */
  lemma DeactivationIsUndoneByTimeout(sys: Sys)
    requires Inv(sys) && sys.store.mode == Emergency && sys.store.guardian == VerifyingSos
    ensures var back := Step(sys, Deactivate).sys;
      && back.store.mode == Dashboard && back.store.guardian == VerifyingSos
      && var t := Step(back, AutoConfirmElapsed);
      t.dispatched == Some(AutoTimeoutSos) && t.sys.store.mode == Emergency
  {
  }

  // ---------------------------------------------------------------------
  // The onresult callback wired to the objects
  // ---------------------------------------------------------------------

  /**
   * The background detector handles a result and calls the guardian's
   * handlers with what it emits, transcript first.
   */
  method DeliverResult(det: Detector.SpeechDetector, guardian: GlobalGuardian,
                       results: seq<Detector.SpeechResult>, resultIndex: nat) returns (dispatched: Option<SosMethod>)
    requires guardian.Valid()
    modifies det, guardian, guardian.store
    ensures guardian.Valid()
    ensures var st := Detector.OnResult(old(det.State()), results, resultIndex, old(guardian.store.profile.safeword));
      var r := Deliver(old(guardian.store.Snapshot()), old(guardian.Local()), st.out);
      && det.State() == st.det
      && guardian.store.Snapshot() == r.store && guardian.Local() == r.guard && dispatched == r.dispatched
  {
    var out := det.HandleResult(results, resultIndex, guardian.store.profile.safeword);
    dispatched := DeliverOutputs(guardian, out);
  }

  /** The detector's outputs reach the guardian's handlers in order: the transcript, then the threat report if any. */
  method DeliverOutputs(guardian: GlobalGuardian, out: seq<Detector.Output>) returns (dispatched: Option<SosMethod>)
    requires 1 <= |out| <= 2 && out[0].TranscriptOut? && (|out| == 2 ==> out[1].ThreatOut?)
    requires guardian.Valid()
    modifies guardian, guardian.store
    ensures guardian.Valid()
    ensures var r := Deliver(old(guardian.store.Snapshot()), old(guardian.Local()), out);
      guardian.store.Snapshot() == r.store && guardian.Local() == r.guard && dispatched == r.dispatched
  {
    ghost var s0 := guardian.store.Snapshot();
    ghost var g0 := guardian.Local();
    var text := out[0].text;
    dispatched := guardian.HandleTranscript(text);
    if |out| == 2 {
      var level := out[1].level;
      guardian.HandleThreatDetected(level);
      assert out == [Detector.TranscriptOut(text), Detector.ThreatOut(level)];
      DeliverTranscriptThenThreat(s0, g0, text, level);
    } else {
      assert out == [Detector.TranscriptOut(text)];
      DeliverTranscript(s0, g0, text);
    }
  }
}
