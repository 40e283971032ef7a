/**
 * The application-wide store (context/SafetyContext.tsx): the screen mode,
 * the user profile, the guardian state shared with the voice pipeline, and
 * the audio status shown to the user. `triggerSOS` is the single sink every
 * alarm path converges on.
 */
module SafetyContext {
  import opened Types

  /** A snapshot of the provider's state variables. */
  datatype Store = Store(
    mode: AppMode,
    profile: UserProfile,
    guardian: GuardianState,
    isListening: bool,
    lastTranscript: string)

  function InitialStore(): (s: Store)
    ensures s.mode == Onboarding && s.guardian == Monitoring
    ensures s.profile == DefaultUser && !s.profile.isSetupComplete && s.profile.contacts == []
  {
    Store(Onboarding, DefaultUser, Monitoring, false, "")
  }

  /**
   * The mount effect: a saved profile is restored and, when complete, moves
   * ONBOARDING to DASHBOARD; then the `trigger` launch parameter overrides.
   */
  function ApplyStartup(s: Store, saved: Option<UserProfile>, trigger: Option<string>): (r: Store)
    ensures r.guardian == s.guardian && r.isListening == s.isListening && r.lastTranscript == s.lastTranscript
    ensures r.profile == if saved.Some? then saved.value else s.profile
  {
    var restored := if saved.Some? then s.(profile := saved.value) else s;
    var resumed :=
      if saved.Some? && saved.value.isSetupComplete && restored.mode == Onboarding
      then restored.(mode := Dashboard) else restored;
    if trigger == Some("SOS") then resumed.(mode := Emergency)
    else if trigger == Some("ALERT") then resumed.(mode := Dashboard)
    else resumed
  }

  /** Startup mode resolution from a freshly created store. */
  lemma StartupResolution(saved: Option<UserProfile>, trigger: Option<string>)
    ensures var r := ApplyStartup(InitialStore(), saved, trigger);
      && (trigger == Some("SOS") ==> r.mode == Emergency)
      && (trigger == Some("ALERT") ==> r.mode == Dashboard)
      && (trigger != Some("SOS") && trigger != Some("ALERT") ==>
            (r.mode == Dashboard <==> saved.Some? && saved.value.isSetupComplete)
            && (r.mode == Dashboard || r.mode == Onboarding))
      && r.guardian == Monitoring
  {
  }

  /** Every alarm path ends here, whatever the method: emergency mode, guardian reset. */
  function ApplyTriggerSos(s: Store, m: SosMethod): (r: Store)
    ensures r.mode == Emergency && r.guardian == Monitoring
    ensures r.profile == s.profile && r.isListening == s.isListening && r.lastTranscript == s.lastTranscript
  {
    s.(mode := Emergency, guardian := Monitoring)
  }

  /** Dispatching twice is dispatching once, and the method never matters. */
  lemma TriggerSosIdempotent(s: Store, m1: SosMethod, m2: SosMethod)
    ensures ApplyTriggerSos(ApplyTriggerSos(s, m1), m2) == ApplyTriggerSos(s, m1)
    ensures ApplyTriggerSos(s, m1) == ApplyTriggerSos(s, m2)
  {
  }

  function ApplyCancelSos(s: Store): (r: Store)
    ensures r.mode == Dashboard
    ensures r.guardian == s.guardian && r.profile == s.profile
    ensures r.isListening == s.isListening && r.lastTranscript == s.lastTranscript
  {
    s.(mode := Dashboard)
  }

  /** The profile is replaced; only a completed profile submitted during onboarding changes the mode. */
  function ApplyUpdateUserProfile(s: Store, p: UserProfile): (r: Store)
    ensures r.profile == p
    ensures r.mode == (if p.isSetupComplete && s.mode == Onboarding then Dashboard else s.mode)
    ensures r.guardian == s.guardian && r.isListening == s.isListening && r.lastTranscript == s.lastTranscript
  {
    var r := s.(profile := p);
    if p.isSetupComplete && s.mode == Onboarding then r.(mode := Dashboard) else r
  }

  function ApplyUpdateAudioState(s: Store, listening: bool, transcript: string): (r: Store)
    ensures r.isListening == listening && r.lastTranscript == transcript
    ensures r.mode == s.mode && r.profile == s.profile && r.guardian == s.guardian
  {
    s.(isListening := listening, lastTranscript := transcript)
  }

  /**
   * The provider's state as mutable fields; each method mirrors one setter or
   * action the context exposes.
   */
  class SafetyStore {
    var mode: AppMode
    var profile: UserProfile
    var guardianState: GuardianState
    var isListening: bool
    var lastTranscript: string

    function Snapshot(): Store
      reads this
    {
      Store(mode, profile, guardianState, isListening, lastTranscript)
    }

    constructor ()
      ensures Snapshot() == InitialStore()
    {
      mode := Onboarding;
      profile := DefaultUser;
      guardianState := Monitoring;
      isListening := false;
      lastTranscript := "";
    }

    method Startup(saved: Option<UserProfile>, trigger: Option<string>)
      modifies this
      ensures Snapshot() == ApplyStartup(old(Snapshot()), saved, trigger)
    {
      if saved.Some? {
        profile := saved.value;
        if saved.value.isSetupComplete && mode == Onboarding {
          mode := Dashboard;
        }
      }
      if trigger == Some("SOS") {
        mode := Emergency;
      } else if trigger == Some("ALERT") {
        mode := Dashboard;
      }
    }

    method SetMode(m: AppMode)
      modifies this
      ensures Snapshot() == old(Snapshot()).(mode := m)
    {
      mode := m;
    }

    method SetGuardianState(g: GuardianState)
      modifies this
      ensures Snapshot() == old(Snapshot()).(guardian := g)
    {
      guardianState := g;
    }

    method UpdateUserProfile(p: UserProfile)
      modifies this
      ensures Snapshot() == ApplyUpdateUserProfile(old(Snapshot()), p)
    {
      profile := p;
      if p.isSetupComplete && mode == Onboarding {
        mode := Dashboard;
      }
    }

    method UpdateAudioState(listening: bool, transcript: string)
      modifies this
      ensures Snapshot() == ApplyUpdateAudioState(old(Snapshot()), listening, transcript)
    {
      isListening := listening;
      lastTranscript := transcript;
    }

    method TriggerSos(m: SosMethod)
      modifies this
      ensures Snapshot() == ApplyTriggerSos(old(Snapshot()), m)
    {
      mode := Emergency;
      guardianState := Monitoring;
    }

    method CancelSos()
      modifies this
      ensures Snapshot() == ApplyCancelSos(old(Snapshot()))
    {
      mode := Dashboard;
    }
  }
}
