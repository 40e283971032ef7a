/**
 * The voice escalation state machine of GlobalGuardian (App.tsx): detector
 * reports move the guardian between MONITORING, VERIFYING_SILENT and
 * VERIFYING_SOS; transcripts confirm (safe word) or cancel (stop/cancel/
 * wait/no) a verification; a 10 s auto-confirm timer dispatches an
 * unanswered verification; a 2 s processing latch debounces confirm/cancel.
 */
module Guardian {
  import opened Types
  import opened Text
  import opened SafetyContext

  /** The pending auto-confirm timeout, remembering the state it was armed in. */
  datatype Timer = Disarmed | ArmedFor(state: GuardianState)

  /** GlobalGuardian's own state: `processingRef` and the effect's timeout. */
  datatype Guard = Guard(processing: bool, timer: Timer)

  const InitialGuard: Guard := Guard(false, Disarmed)

  /** The outcome of one handler: the new store, the new guardian-local state, and what was dispatched. */
  datatype Reaction = Reaction(store: Store, guard: Guard, dispatched: Option<SosMethod>)

  /** Monitoring runs only once setup is complete, outside onboarding and outside an emergency. */
  function IsArmed(p: UserProfile, m: AppMode): (armed: bool)
    ensures armed ==> p.isSetupComplete && m != Onboarding && m != Emergency
    ensures p.isSetupComplete && m != Onboarding && m != Emergency ==> armed
  {
    p.isSetupComplete && m != AppMode.Onboarding && m != AppMode.Emergency
  }

  // ---------------------------------------------------------------------
  // The auto-confirm timer effect
  // ---------------------------------------------------------------------

  /** The timer a verification state keeps pending: one in each verifying state, none while monitoring. */
  function TimerFor(g: GuardianState): (t: Timer)
    ensures t.Disarmed? <==> g == Monitoring
    ensures t.ArmedFor? ==> t.state == g
  {
    if g == Monitoring then Disarmed else ArmedFor(g)
  }

  /**
   * The effect keyed on guardianState: when the state changed, the cleanup
   * cancels the pending timeout and a new one is armed if the new state verifies.
   */
  function TimerEffect(before: GuardianState, after: GuardianState, t: Timer): (r: Timer)
    ensures before != after ==> r == TimerFor(after)
    ensures before == after ==> r == t
  {
    if before == after then t else TimerFor(after)
  }

  /** Exactly one timer is pending in a verifying state and none while monitoring. */
  predicate TimerInvariant(s: Store, g: Guard) {
    g.timer == TimerFor(s.guardian)
  }

  /** Re-run the effect after a step that may have changed the guardian state. */
  function Settle(before: GuardianState, r: Reaction): (out: Reaction)
    ensures out.store == r.store && out.dispatched == r.dispatched
    ensures out.guard.processing == r.guard.processing
    ensures out.guard.timer == TimerEffect(before, r.store.guardian, r.guard.timer)
  {
    r.(guard := r.guard.(timer := TimerEffect(before, r.store.guardian, r.guard.timer)))
  }

  lemma {:induction false} SettleRestoresInvariant(before: GuardianState, r: Reaction)
    requires before == r.store.guardian ==> TimerInvariant(r.store, r.guard)
    ensures TimerInvariant(Settle(before, r).store, Settle(before, r).guard)
  {
  }

  // ---------------------------------------------------------------------
  // handleThreatDetected
  // ---------------------------------------------------------------------

  /** The next guardian state after a detector report. */
  function ThreatTransition(g: GuardianState, level: ThreatLevel): (r: GuardianState)
    ensures g == VerifyingSilent && level == Critical ==> r == VerifyingSos
    ensures g != Monitoring && !(g == VerifyingSilent && level == Critical) ==> r == g
    ensures g == Monitoring ==>
      r == (if level == Critical then VerifyingSos else if level == Danger then VerifyingSilent else Monitoring)
  {
    if g == VerifyingSilent && level == Critical then VerifyingSos
    else if g != Monitoring then g
    else if level == Critical then VerifyingSos
    else if level == Danger then VerifyingSilent
    else g
  }

  /** How far a verification has escalated. */
  function VerifyRank(g: GuardianState): nat {
    match g
    case Monitoring => 0
    case VerifyingSilent => 1
    case VerifyingSos => 2
  }

  /** A detector report never de-escalates, and never leaves a verification. */
  lemma ThreatNeverDeescalates(g: GuardianState, level: ThreatLevel)
    ensures VerifyRank(ThreatTransition(g, level)) >= VerifyRank(g)
    ensures g != Monitoring ==> ThreatTransition(g, level) != Monitoring
  {
  }

  function OnThreat(s: Store, gd: Guard, level: ThreatLevel): (r: Reaction)
    ensures r.store == s.(guardian := ThreatTransition(s.guardian, level))
    ensures r.dispatched == None && r.guard.processing == gd.processing
  {
    Settle(s.guardian, Reaction(s.(guardian := ThreatTransition(s.guardian, level)), gd, None))
  }

  // ---------------------------------------------------------------------
  // handleTranscript
  // ---------------------------------------------------------------------

  /** `/stop|cancel|wait|no/` on the lower-cased transcript: a plain substring search. */
  predicate IsCancelPhrase(t: string) {
    Contains(t, "stop") || Contains(t, "cancel") || Contains(t, "wait") || Contains(t, "no")
  }

  datatype Decision = Ignore | Confirm(action: SosMethod) | CancelVerification

  /** What a transcript asks for: the safe-word check comes before the cancel check. */
  function Decide(g: GuardianState, processing: bool, text: string, safeword: string): (d: Decision)
    ensures d.Confirm? <==> !processing && g != Monitoring && Contains(ToLower(text), ToLower(safeword))
    ensures d.Confirm? ==> d.action == (if g == VerifyingSos then VoiceSos else VoiceSilent)
    ensures d.CancelVerification? <==>
      !processing && g != Monitoring && !Contains(ToLower(text), ToLower(safeword)) && IsCancelPhrase(ToLower(text))
  {
    if processing || g == Monitoring then Ignore
    else if Contains(ToLower(text), ToLower(safeword)) then
      Confirm(if g == VerifyingSos then VoiceSos else VoiceSilent)
    else if IsCancelPhrase(ToLower(text)) then CancelVerification
    else Ignore
  }

  function OnTranscript(s: Store, gd: Guard, text: string): (r: Reaction)
    ensures r.store.isListening && r.store.lastTranscript == text
    ensures r.store.profile == s.profile
  {
    var heard := ApplyUpdateAudioState(s, true, text);
    match Decide(s.guardian, gd.processing, text, s.profile.safeword)
    case Ignore => Reaction(heard, gd, None)
    case Confirm(m) =>
      Settle(s.guardian, Reaction(ApplyTriggerSos(heard, m), gd.(processing := true), Some(m)))
    case CancelVerification =>
      Settle(s.guardian, Reaction(heard.(guardian := Monitoring), gd.(processing := true), None))
  }

  /** While monitoring, a transcript is only shown: no transition, no dispatch, no latch. */
  lemma MonitoringTranscriptOnlyUpdatesAudio(s: Store, gd: Guard, text: string)
    requires s.guardian == Monitoring
    ensures OnTranscript(s, gd, text) == Reaction(ApplyUpdateAudioState(s, true, text), gd, None)
  {
  }

  /** While the latch is set, transcripts cause no action at all. */
  lemma LatchedTranscriptIgnored(s: Store, gd: Guard, text: string)
    requires gd.processing
    ensures OnTranscript(s, gd, text) == Reaction(ApplyUpdateAudioState(s, true, text), gd, None)
  {
  }

  /**
   * In a verifying state, a transcript holding the safe word dispatches the
   * matching voice method even when it also holds a cancel word.
   */
  lemma ConfirmationWinsOverCancel(s: Store, gd: Guard, text: string)
    requires s.guardian != Monitoring && !gd.processing
    requires Contains(ToLower(text), ToLower(s.profile.safeword))
    ensures var r := OnTranscript(s, gd, text);
      && r.dispatched == Some(if s.guardian == VerifyingSos then VoiceSos else VoiceSilent)
      && r.store.mode == Emergency && r.store.guardian == Monitoring
      && r.guard.processing && r.guard.timer == Disarmed
  {
  }

  /** Otherwise a cancel word returns to MONITORING without dispatching and disarms the timer. */
  lemma CancelReturnsToMonitoring(s: Store, gd: Guard, text: string)
    requires s.guardian != Monitoring && !gd.processing
    requires !Contains(ToLower(text), ToLower(s.profile.safeword)) && IsCancelPhrase(ToLower(text))
    ensures var r := OnTranscript(s, gd, text);
      && r.dispatched == None && r.store.guardian == Monitoring && r.store.mode == s.mode
      && r.guard.processing && r.guard.timer == Disarmed
  {
  }

  /** The cancel match is a substring match: "i know" and "not now" cancel a verification. */
  lemma CancelMatchesInsideWords()
    ensures IsCancelPhrase("i know") && IsCancelPhrase("not now")
  {
    assert OccursAt("i know", "no", 3);
    assert OccursAt("not now", "no", 0);
  }

  // ---------------------------------------------------------------------
  // The timer expiring, the latch elapsing, the manual cancel
  // ---------------------------------------------------------------------

  function TimeoutMethod(g: GuardianState): SosMethod {
    if g == VerifyingSos then AutoTimeoutSos else AutoTimeoutSilent
  }

  /** The 10 s timeout fires for the state it was armed in; with no pending timeout nothing happens. */
  function OnTimeout(s: Store, gd: Guard): (r: Reaction)
    ensures gd.timer.Disarmed? ==> r == Reaction(s, gd, None)
    ensures gd.timer.ArmedFor? ==>
      r.dispatched == Some(TimeoutMethod(gd.timer.state)) && r.store == ApplyTriggerSos(s, TimeoutMethod(gd.timer.state))
  {
    match gd.timer
    case Disarmed => Reaction(s, gd, None)
    case ArmedFor(st) =>
      Settle(s.guardian, Reaction(ApplyTriggerSos(s, TimeoutMethod(st)), gd.(timer := Disarmed), Some(TimeoutMethod(st))))
  }

  /** Under the timer invariant an expiry dispatches the method of the current verifying state. */
  lemma TimeoutMatchesState(s: Store, gd: Guard)
    requires TimerInvariant(s, gd) && s.guardian != Monitoring
    ensures var r := OnTimeout(s, gd);
      && r.dispatched == Some(if s.guardian == VerifyingSos then AutoTimeoutSos else AutoTimeoutSilent)
      && r.store.mode == Emergency && r.store.guardian == Monitoring && r.guard.timer == Disarmed
  {
  }

  function OnLatchElapsed(s: Store, gd: Guard): (r: Reaction)
    ensures r == Reaction(s, gd.(processing := false), None)
  {
    Reaction(s, gd.(processing := false), None)
  }

  /** Dashboard's "Cancel Manual" button: back to MONITORING, nothing dispatched. */
  function OnCancelManual(s: Store, gd: Guard): (r: Reaction)
    ensures r.store == s.(guardian := Monitoring) && r.dispatched == None
    ensures r.guard == gd.(timer := if s.guardian == Monitoring then gd.timer else Disarmed)
  {
    Settle(s.guardian, Reaction(s.(guardian := Monitoring), gd, None))
  }

  /** Every guardian handler keeps exactly one pending timer per verifying state. */
  lemma HandlersKeepTimerInvariant(s: Store, gd: Guard, level: ThreatLevel, text: string)
    requires TimerInvariant(s, gd)
    ensures var r := OnThreat(s, gd, level); TimerInvariant(r.store, r.guard)
    ensures var r := OnTranscript(s, gd, text); TimerInvariant(r.store, r.guard)
    ensures var r := OnTimeout(s, gd); TimerInvariant(r.store, r.guard)
    ensures var r := OnLatchElapsed(s, gd); TimerInvariant(r.store, r.guard)
    ensures var r := OnCancelManual(s, gd); TimerInvariant(r.store, r.guard)
  {
  }

  // ---------------------------------------------------------------------
  // GlobalGuardian as an object over the shared store
  // ---------------------------------------------------------------------

  class GlobalGuardian {
    const store: SafetyStore
    var processing: bool
    var timer: Timer

    function Local(): Guard
      reads this
    {
      Guard(processing, timer)
    }

    ghost predicate Valid()
      reads this, store
    {
      TimerInvariant(store.Snapshot(), Local())
    }

    constructor (store: SafetyStore)
      requires store.guardianState == Monitoring
      ensures this.store == store && Local() == InitialGuard && Valid()
    {
      this.store := store;
      processing := false;
      timer := Disarmed;
    }

    /** The auto-confirm effect, run after any render in which guardianState changed. */
    method RunTimerEffect(before: GuardianState)
      modifies this
      ensures Local() == old(Local()).(timer := TimerEffect(before, store.guardianState, old(timer)))
    {
      if store.guardianState != before {
        timer := Disarmed;
        if store.guardianState != Monitoring {
          timer := ArmedFor(store.guardianState);
        }
      }
    }

    method HandleThreatDetected(level: ThreatLevel)
      requires Valid()
      modifies this, store
      ensures var r := OnThreat(old(store.Snapshot()), old(Local()), level);
        store.Snapshot() == r.store && Local() == r.guard
      ensures Valid()
    {
      HandlersKeepTimerInvariant(store.Snapshot(), Local(), level, []);
      var before := store.guardianState;
      if store.guardianState == VerifyingSilent && level == Critical {
        store.SetGuardianState(VerifyingSos);
      } else if store.guardianState == Monitoring {
        if level == Critical {
          store.SetGuardianState(VerifyingSos);
        } else if level == Danger {
          store.SetGuardianState(VerifyingSilent);
        }
      }
      RunTimerEffect(before);
    }

    method HandleTranscript(text: string) returns (dispatched: Option<SosMethod>)
      requires Valid()
      modifies this, store
      ensures var r := OnTranscript(old(store.Snapshot()), old(Local()), text);
        store.Snapshot() == r.store && Local() == r.guard && dispatched == r.dispatched
      ensures Valid()
    {
      HandlersKeepTimerInvariant(store.Snapshot(), Local(), NoThreat, text);
      var before := store.guardianState;
      store.UpdateAudioState(true, text);
      dispatched := None;
      if processing {
        return;
      }
      var cleanText := ToLower(text);
      var safe := ToLower(store.profile.safeword);
      if store.guardianState != Monitoring {
        if Contains(cleanText, safe) {
          processing := true;
          var action := if store.guardianState == VerifyingSos then VoiceSos else VoiceSilent;
          store.TriggerSos(action);
          dispatched := Some(action);
          RunTimerEffect(before);
          return;
        }
        if IsCancelPhrase(cleanText) {
          processing := true;
          store.SetGuardianState(Monitoring);
          RunTimerEffect(before);
          return;
        }
      }
    }

    /** The 10 s timeout callback. */
    method AutoConfirmElapsed() returns (dispatched: Option<SosMethod>)
      requires Valid()
      modifies this, store
      ensures var r := OnTimeout(old(store.Snapshot()), old(Local()));
        store.Snapshot() == r.store && Local() == r.guard && dispatched == r.dispatched
      ensures Valid()
    {
      HandlersKeepTimerInvariant(store.Snapshot(), Local(), NoThreat, []);
      dispatched := None;
      if timer.ArmedFor? {
        var before := store.guardianState;
        var action := TimeoutMethod(timer.state);
        timer := Disarmed;
        store.TriggerSos(action);
        dispatched := Some(action);
        RunTimerEffect(before);
      }
    }

    /** The 2 s callback that releases `processingRef`. */
    method LatchElapsed()
      requires Valid()
      modifies this
      ensures Local() == OnLatchElapsed(store.Snapshot(), old(Local())).guard
      ensures Valid()
    {
      HandlersKeepTimerInvariant(store.Snapshot(), Local(), NoThreat, []);
      processing := false;
    }

    /** Dashboard's "Cancel Manual" button followed by the timer effect. */
    method CancelManual()
      requires Valid()
      modifies this, store
      ensures var r := OnCancelManual(old(store.Snapshot()), old(Local()));
        store.Snapshot() == r.store && Local() == r.guard
      ensures Valid()
    {
      HandlersKeepTimerInvariant(store.Snapshot(), Local(), NoThreat, []);
      var before := store.guardianState;
      store.SetGuardianState(Monitoring);
      RunTimerEffect(before);
    }
  }
}
