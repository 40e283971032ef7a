/** Shared enumerations and records of the safety companion (types.ts). */
module Types {

  datatype Option<+T> = None | Some(value: T)

  /** Which top-level screen family the application is in. */
  datatype AppMode = Onboarding | Dashboard | Emergency | PreAlert | Discreet

  /** The verification phase of the voice escalation state machine. */
  datatype GuardianState = Monitoring | VerifyingSilent | VerifyingSos

  /** Threat tiers, ordered NONE < SUSPICIOUS < DANGER < CRITICAL. */
  datatype ThreatLevel = NoThreat | Suspicious | Danger | Critical

  function Rank(t: ThreatLevel): (r: nat)
    ensures r <= 3
    ensures r == 0 <==> t == NoThreat
  {
    match t
    case NoThreat => 0
    case Suspicious => 1
    case Danger => 2
    case Critical => 3
  }

  /** The provenance string handed to triggerSOS; it is logged and never changes dispatch. */
  datatype SosMethod =
    | AutoTimeoutSos | AutoTimeoutSilent | VoiceSos | VoiceSilent | ButtonPress | DiscreetCode

  datatype EmergencyContact = EmergencyContact(id: string, name: string, phone: string, relation: string)

  datatype UserProfile = UserProfile(
    fullName: string,
    safeword: string,
    contacts: seq<EmergencyContact>,
    isSetupComplete: bool)

  /** The profile a fresh installation starts with. */
  const DefaultUser: UserProfile := UserProfile("", "", [], false)
}
