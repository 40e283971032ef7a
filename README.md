# SAFE-Live voice escalation core, modelled in Dafny

SAFE-Live is a browser-based personal-safety companion. While the app is
armed, a background speech detector listens all the time. It keeps a rolling
history of the last 300 characters of final speech and counts how often the
user's safe word occurs in that history plus the current interim speech. Two
occurrences report DANGER and three report CRITICAL. The global guardian turns
these reports into a verification: VERIFYING_SILENT or VERIFYING_SOS. Once a
verification is pending, saying the safe word again confirms it at once, and
saying "stop", "cancel", "wait" or "no" cancels it. With no answer, a
10-second timeout sends the alarm anyway. Every alarm path ends in
`triggerSOS`, which switches the app to the emergency screen. That screen
counts down five seconds and then runs a one-shot dispatch sequence.

Around this pipeline sit three small state machines:
- the setup wizard;
- the calculator disguise, which raises the alarm on the codes 911, 0000 and 112;
- the dashboard buttons.

The model has these modules:
- `Types`: the enums and records.
- `Text`: the JavaScript string operations the detector relies on (ASCII
  `toLowerCase`, `trim`, `slice(-n)`, `includes`, regular-expression escaping
  and global match counting).
- `SafetyContext`: the shared store.
- `Guardian`: GlobalGuardian's handlers, auto-confirm timer and processing latch.
- `Detector`: AIDetector's recognition callback, silence reset, local detection,
  simulation input and analysis throttle.
- `Emergency`: the emergency screen.
- `SetupWizard`: the onboarding wizard.
- `Calculator`: the disguise.
- `App`: the routing, and the whole system stepped by serialised events.

Every stateful component appears twice:
- as a value with pure step functions, about which the lemmas are stated;
- as a class whose fields mirror the component's React state and refs. Each
  method of the class is proved to produce exactly the state the matching
  step function gives.

Timers are abstract expiry events. The remote analyzer, the report generator
and `eval` are parameters of the events that deliver their results.

The proofs bring out these behaviours of the code, under the model's reading
that every handler sees the current state (see "## Left out"):
- A DANGER report does not clear the history. So while a verification is
  pending, the next recognition result still holds the safe word and confirms
  the alarm, even when the user said "stop" (`App.StopAfterDangerConfirms`).
- The cancel words are matched as substrings, so "i know" and "not now"
  cancel (`Guardian.CancelMatchesInsideWords`).
- A third safe word said during a silent verification both confirms it and
  reports CRITICAL in the same callback. The emergency screen then opens with
  a fresh VERIFYING_SOS timeout pending. If the user deactivates the emergency
  before that timeout fires, the timeout raises the alarm again
  (`App.ThirdWordConfirmsAndRearms`, `App.DeactivationIsUndoneByTimeout`).
- The calculator code 0000 can never be typed, because a leading zero is
  replaced (`Calculator.ZeroCodeUnreachable`).
- The simulation input appends to the history without the 300-character cut
  (`Detector.SimulationSkipsTruncation`).

## Model

| member | source | states |
|---|---|---|
| Types.Rank | types.ts:48-53 | the escalation order of threat tiers ranks them within 0..3, and only NONE has rank 0 |
| Text.ToLower | components/AIDetector.tsx:171-172 | lower-casing maps each character and keeps the length |
| Text.ToLowerIdempotent | components/AIDetector.tsx:171-172 | lower-casing twice is lower-casing once |
| Text.Trim | components/AIDetector.tsx:135 | the result is a contiguous slice of the input with only whitespace before and after it, and it neither starts nor ends with whitespace |
| Text.TrimStart | components/AIDetector.tsx:135 | the result is a suffix of the input, everything dropped is whitespace, and it does not start with whitespace |
| Text.TrimEnd | components/AIDetector.tsx:135 | the result is a prefix of the input, everything dropped is whitespace, and it does not end with whitespace |
| Text.TrimmedAt | components/AIDetector.tsx:135 | r sits at offset k in s with only whitespace around it |
| Text.TakeLast | components/AIDetector.tsx:130 | `slice(-n)` keeps the last min(n, length) characters |
| Text.TrimKeepsWord | components/AIDetector.tsx:135 | trimming never destroys an occurrence of a word that has no whitespace at its ends |
| Text.CountMatches | components/AIDetector.tsx:179-181 | a global literal match count never exceeds the text length; what it counts is stated by Text.CountIsNonOverlapping |
| Text.Contains | App.tsx:87 | `includes`: the word occurs at some position of the text |
| Text.CountPositiveIffContains | components/AIDetector.tsx:179-181 | the match count is positive exactly when the word occurs in the text |
| Text.CountLeadingWord | components/AIDetector.tsx:179-181 | a leading occurrence counts once and matching resumes after it |
| Text.CountIsNonOverlapping | components/AIDetector.tsx:179-181 | for a non-empty word, the count is the size of some list of non-overlapping occurrences, and no list of non-overlapping occurrences is longer |
| Text.OverlapExample | components/AIDetector.tsx:179-181 | an example: "aa" is counted once in "aaa" |
| Text.Disjoint | components/AIDetector.tsx:179-181 | a list of occurrences, each starting at or after the end of every earlier one |
| Text.MatchPositionsAreDisjoint | components/AIDetector.tsx:179-181 | the positions the greedy scan finds are non-overlapping occurrences, as many as the count |
| Text.CountIsMaximal | components/AIDetector.tsx:179-181 | any list of non-overlapping occurrences is no longer than the count |
| Text.OperatorIsNotLiteral | components/AIDetector.tsx:178 | a backslash-free pattern holding a dot, `*`, `+`, `?`, `^`, `$`, a parenthesis, a vertical bar or `[`, each an operator on its own, does not denote a literal string |
| Text.EscapeRegExp | components/AIDetector.tsx:178 | escaping keeps every character and at most doubles the length |
| Text.EscapedIsLiteral | components/AIDetector.tsx:178-179 | the escaped safe word, read as a pattern, denotes exactly the safe word |
| SafetyContext.InitialStore | context/SafetyContext.tsx:22-39 | the store starts in ONBOARDING and MONITORING with an empty, incomplete profile |
| SafetyContext.ApplyStartup | context/SafetyContext.tsx:42-64 | startup restores a saved profile and keeps the guardian and audio state |
| SafetyContext.StartupResolution | context/SafetyContext.tsx:42-64 | trigger=SOS opens EMERGENCY; trigger=ALERT opens DASHBOARD; otherwise DASHBOARD exactly when a completed profile was saved, else ONBOARDING |
| SafetyContext.ApplyTriggerSos | context/SafetyContext.tsx:132-136 | every alarm switches to EMERGENCY and resets the guardian to MONITORING, leaving profile and audio state alone |
| SafetyContext.TriggerSosIdempotent | context/SafetyContext.tsx:132-136 | triggering twice equals triggering once, and the method string does not matter |
| SafetyContext.ApplyCancelSos | context/SafetyContext.tsx:138-140 | cancelling returns to DASHBOARD and changes nothing else |
| SafetyContext.ApplyUpdateUserProfile | context/SafetyContext.tsx:119-125 | the profile is replaced; the mode moves to DASHBOARD only for a completed profile submitted during ONBOARDING |
| SafetyContext.ApplyUpdateAudioState | context/SafetyContext.tsx:127-130 | only the listening flag and the transcript change |
| SafetyContext.SafetyStore.constructor | context/SafetyContext.tsx:32-39 | a new provider holds the initial store |
| SafetyContext.SafetyStore.Startup | context/SafetyContext.tsx:42-64 | the mount effect leaves the store in the startup state |
| SafetyContext.SafetyStore.SetMode | context/SafetyContext.tsx:32 | only the mode changes |
| SafetyContext.SafetyStore.SetGuardianState | context/SafetyContext.tsx:35 | only the guardian state changes |
| SafetyContext.SafetyStore.UpdateUserProfile | context/SafetyContext.tsx:119-125 | the fields end as the profile update prescribes |
| SafetyContext.SafetyStore.UpdateAudioState | context/SafetyContext.tsx:127-130 | the fields end as the audio update prescribes |
| SafetyContext.SafetyStore.TriggerSos | context/SafetyContext.tsx:132-136 | the fields end in EMERGENCY with the guardian reset |
| SafetyContext.SafetyStore.CancelSos | context/SafetyContext.tsx:138-140 | the fields end in DASHBOARD |
| Guardian.IsArmed | App.tsx:115 | armed exactly when setup is complete and the mode is neither ONBOARDING nor EMERGENCY |
| Guardian.TimerFor | App.tsx:29-43 | a timeout is pending exactly in the verifying states, for the state it was armed in |
| Guardian.TimerEffect | App.tsx:29-43 | a change of guardian state cancels the old timeout and arms one for the new state; no change keeps it |
| Guardian.Settle | App.tsx:29-43 | re-running the effect touches only the timer |
| Guardian.SettleRestoresInvariant | App.tsx:29-43 | after the effect, exactly one timeout is pending per verifying state and none while monitoring |
| Guardian.ThreatTransition | App.tsx:46-70 | SILENT plus CRITICAL escalates to SOS; other verifying states stay; MONITORING goes to SOS on CRITICAL, SILENT on DANGER, else stays |
| Guardian.ThreatNeverDeescalates | App.tsx:46-70 | a report never lowers the verification and never ends one |
| Guardian.OnThreat | App.tsx:46-70 | a report changes only the guardian state and dispatches nothing |
| Guardian.Decide | App.tsx:78-107 | latched or monitoring: ignore; otherwise the safe word confirms (VOICE_SOS from SOS, VOICE_SILENT from SILENT) before any cancel word is checked |
| Guardian.IsCancelPhrase | App.tsx:99 | the lower-cased text contains "stop", "cancel", "wait" or "no" |
| Guardian.OnTranscript | App.tsx:73-108 | every transcript updates the audio state and keeps the profile |
| Guardian.MonitoringTranscriptOnlyUpdatesAudio | App.tsx:75-84 | while monitoring, a transcript only updates the audio state |
| Guardian.LatchedTranscriptIgnored | App.tsx:75-78 | while the 2 s latch is set, a transcript only updates the audio state |
| Guardian.ConfirmationWinsOverCancel | App.tsx:87-96 | a verifying transcript with the safe word dispatches the matching voice method, opens EMERGENCY, sets the latch and disarms the timer, even if it also holds a cancel word |
| Guardian.CancelReturnsToMonitoring | App.tsx:99-106 | a cancel word without the safe word returns to MONITORING, keeps the mode, sets the latch and disarms the timer |
| Guardian.CancelMatchesInsideWords | App.tsx:99 | "i know" and "not now" count as cancel phrases |
| Guardian.OnTimeout | App.tsx:33-37 | an expiry dispatches the method of the state the timer was armed in; with nothing pending nothing happens |
| Guardian.TimeoutMatchesState | App.tsx:33-37 | under the timer invariant, an expiry dispatches AUTO_TIMEOUT_SOS from SOS and AUTO_TIMEOUT_SILENT from SILENT, and opens EMERGENCY |
| Guardian.OnLatchElapsed | App.tsx:94 | the latch callback only releases the latch |
| Guardian.OnCancelManual | components/Dashboard.tsx:221 | "Cancel Manual" returns to MONITORING, dispatches nothing and disarms a pending timeout |
| Guardian.HandlersKeepTimerInvariant | App.tsx:29-108 | every guardian handler keeps one pending timeout per verifying state |
| Guardian.GlobalGuardian.constructor | App.tsx:12-14 | a new guardian has no latch and no timeout |
| Guardian.GlobalGuardian.RunTimerEffect | App.tsx:29-43 | the timer ends as the effect prescribes |
| Guardian.GlobalGuardian.HandleThreatDetected | App.tsx:46-70 | store and guardian end as the report handler prescribes |
| Guardian.GlobalGuardian.HandleTranscript | App.tsx:73-108 | store, guardian and dispatch are those of the transcript handler |
| Guardian.GlobalGuardian.AutoConfirmElapsed | App.tsx:33-37 | store, guardian and dispatch are those of the expiry |
| Guardian.GlobalGuardian.LatchElapsed | App.tsx:94 | the latch is released |
| Guardian.GlobalGuardian.CancelManual | components/Dashboard.tsx:221 | store and guardian end as the manual cancel prescribes |
| Detector.SplitDistributes | components/AIDetector.tsx:117-123 | splitting results into final and interim text distributes over concatenation |
| Detector.CollectResults | components/AIDetector.tsx:114-123 | the loop from resultIndex yields the concatenated final and interim transcripts |
| Detector.PatternIsSafeWord | components/AIDetector.tsx:172-179 | the built pattern matches exactly the lower-cased safe word |
| Detector.SafeWordCount | components/AIDetector.tsx:168-181 | the count of safe-word matches is bounded by the text length; what it counts is stated by Detector.SafeWordOccurrences |
| Detector.SafeWordOccurrences | components/AIDetector.tsx:168-181 | for a non-empty safe word, the count is the largest number of non-overlapping occurrences of the lower-cased safe word in the lower-cased text |
| Detector.SafeWordCountPositive | components/AIDetector.tsx:168-181 | the count is positive exactly when the lower-cased text contains the lower-cased safe word |
| Detector.CountIsCaseInsensitive | components/AIDetector.tsx:171-172 | the count ignores ASCII case on both sides |
| Detector.OperatorsAreEscaped | components/AIDetector.tsx:178 | for a safe word holding a character that is an operator on its own (a dot, `*`, `+`, `?`, `^`, `$`, a parenthesis, a vertical bar or `[`) and no backslash, the unescaped pattern would not be literal, while the built pattern matches exactly the lower-cased safe word |
| Detector.CountSpokenRepetitions | components/AIDetector.tsx:186-200 | a word said twice counts 2 and said three times counts 3 |
| Detector.DetectSafeWord | components/AIDetector.tsx:168-203 | the memo never decreases; a report is the new memo and strictly above the old one; no report keeps the memo; the history is cleared exactly on a CRITICAL report |
| Detector.DetectionTiers | components/AIDetector.tsx:168-203 | empty safe word: nothing; 3 or more: CRITICAL unless already CRITICAL; 2: DANGER from NONE or SUSPICIOUS; otherwise nothing; and CRITICAL (DANGER) is reported exactly under its condition |
| Detector.AppendFinal | components/AIDetector.tsx:126-132 | an empty final keeps the history; otherwise the result is the last characters of history, space and final: all of them when they fit in 300, exactly 300 when they do not |
| Detector.FinalText | components/AIDetector.tsx:117-123 | the concatenated transcripts of the final results, in order |
| Detector.InterimText | components/AIDetector.tsx:117-123 | the concatenated transcripts of the interim results, in order |
| Detector.EffectiveText | components/AIDetector.tsx:135 | the broadcast is history, a space and interim speech with only the edge whitespace removed |
| Detector.OnResult | components/AIDetector.tsx:105-145 | one result re-arms the silence reset, broadcasts first, sets the caption to the last 100 characters of the broadcast, and reports a tier only above the previous one |
| Detector.BroadcastOfResult | components/AIDetector.tsx:135-138 | the broadcast is the trimmed history plus interim speech |
| Detector.OnSilence | components/AIDetector.tsx:107-112 | 5 s without results clears history, memo and caption |
| Detector.Simulate | components/AIDetector.tsx:223-235 | an empty input does nothing; a line containing "stop" is only forwarded to a listening parent; otherwise the history gains a space and the line, a listening parent receives that history first, passive mode only appends, active mode reports as detection on that history prescribes and clears the history only with a CRITICAL report; the memo never decreases |
| Detector.HistoryStaysBounded | components/AIDetector.tsx:126-132 | the recognition path and the silence reset keep the history within 300 characters |
| Detector.SimulationSkipsTruncation | components/AIDetector.tsx:229 | the simulation path lets the history grow past 300 characters |
| Detector.StartAnalysis | components/AIDetector.tsx:207-214 | no query while one is pending or within 2000 ms; otherwise the time is recorded and the analyzer is queried exactly when nothing was reported locally |
| Detector.FinishAnalysis | components/AIDetector.tsx:215-220 | the analyzer's tier is forwarded unless it is NONE |
| Detector.AnalysesAreSpaced | components/AIDetector.tsx:207-210 | two accepted queries are at least 2000 ms apart |
| Detector.ThreatsDistribute | components/AIDetector.tsx:189-200 | the reports of a run are the reports of its parts in order |
| Detector.ReportsOfDetection | components/AIDetector.tsx:138-145 | a step's only report is the detection's |
| Detector.HeardReportsRising | components/AIDetector.tsx:105-145 | a recognition result's report lies strictly above the old memo and at most at the new one |
| Detector.SimulatedReportsRising | components/AIDetector.tsx:223-235 | the same holds for a simulated line |
| Detector.StepReportsRising | components/AIDetector.tsx:105-235 | the same holds for any detector event but the silence reset |
| Detector.OneReportPerTierPerCycle | components/AIDetector.tsx:186-203 | between two silence resets the reported tiers strictly increase, so each tier is reported at most once |
| Detector.RisingConcat | components/AIDetector.tsx:186-203 | strictly rising report sequences chain |
| Detector.TrimmedLowerKeepsWord | components/AIDetector.tsx:135 | the trimmed broadcast keeps a safe word present in the lower-cased text |
| Detector.CommittedWordSurvives | components/AIDetector.tsx:126-135 | a safe word in the history survives into the next broadcast when no truncation happens |
| Detector.NextBroadcastRepeatsHistoryWord | components/AIDetector.tsx:126-138 | while the history holds a safe word without edge whitespace, and the next final speech does not push the history past 300 characters, the next broadcast holds the safe word too |
| Detector.SpeechDetector.constructor | components/AIDetector.tsx:40-46 | a mounted detector has empty refs |
| Detector.SpeechDetector.DetectSafeWordLocal | components/AIDetector.tsx:168-203 | history, memo and report are those of the detection; other refs are unchanged |
| Detector.SpeechDetector.CommitFinal | components/AIDetector.tsx:126-132 | the history becomes the committed final speech as the append-and-truncate rule prescribes; nothing else changes |
| Detector.SpeechDetector.ShowCaption | components/AIDetector.tsx:141 | the caption becomes the last 100 characters of the broadcast; nothing else changes |
| Detector.SpeechDetector.BroadcastAndDetect | components/AIDetector.tsx:135-145 | the broadcast is the effective text, followed by the detection's report if any; caption, history and memo end as that detection prescribes |
| Detector.SpeechDetector.CurrentText | components/AIDetector.tsx:135 | the text computed is the effective text of the history and the interim speech |
| Detector.SpeechDetector.ReportLocal | components/AIDetector.tsx:138-145 | history and memo end as detection on the effective text prescribes, and the reports are that detection's |
| Detector.ThirdWordReportsCritical | components/AIDetector.tsx:186-196 | after a DANGER report, a result with three safe words broadcasts a text holding the safe word and reports CRITICAL |
| Detector.SpeechDetector.HandleResult | components/AIDetector.tsx:105-145 | refs and callbacks are those of one recognition result |
| Detector.SpeechDetector.SilenceElapsed | components/AIDetector.tsx:107-112 | refs end as the silence reset prescribes |
| Detector.SpeechDetector.HandleSimulation | components/AIDetector.tsx:223-235 | refs and callbacks are those of the simulation |
| Detector.SpeechDetector.BeginAnalysis | components/AIDetector.tsx:207-214 | the throttle decision and refs are those of the analysis gate |
| Detector.SpeechDetector.EndAnalysis | components/AIDetector.tsx:215-220 | the forwarded tier and refs are those of the finished analysis |
| Emergency.StartIfDue | components/EmergencyMode.tsx:20-24 | the sequence starts exactly at countdown zero with nothing started, reaching step 2 |
| Emergency.Tick | components/EmergencyMode.tsx:13-18 | a second lowers a positive countdown by one and starts the sequence on reaching zero; at zero nothing changes |
| Emergency.ReportArrived | components/EmergencyMode.tsx:40-46 | the awaited report is stored and the contact step follows, only from step 2 |
| Emergency.ReportRow | components/EmergencyMode.tsx:100 | the report row is completed exactly from step 2 with a report, active exactly from step 2 without one |
| Emergency.ContactRow | components/EmergencyMode.tsx:105 | the contact row is completed exactly from step 3 and never active |
| Emergency.StatusColor | components/EmergencyMode.tsx:147-151 | emerald exactly for completed, yellow exactly for active, slate exactly for pending |
| Emergency.CancelAccepted | components/EmergencyMode.tsx:124-138 | during the countdown any click cancels; afterwards only a double click |
| Emergency.ApplyKeepsReachable | components/EmergencyMode.tsx:8-47 | every event keeps the countdown in 0..5 and started exactly at zero; the countdown never rises and the step never falls |
| Emergency.RunKeepsReachable | components/EmergencyMode.tsx:8-47 | the same holds along any run |
| Emergency.ReportCompletedImpliesContactsCompleted | components/EmergencyMode.tsx:100-105 | a completed report row implies a completed contact row |
| Emergency.FiveSecondsStartDispatch | components/EmergencyMode.tsx:13-24 | five seconds after mounting, the sequence stands at step 2 awaiting the report |
| Emergency.SequenceStartsAtMostOnce | components/EmergencyMode.tsx:20-24 | the dispatch sequence starts at most once per mount |
| Emergency.EmergencyScreen.constructor | components/EmergencyMode.tsx:8-10 | the screen mounts at 5 with nothing started |
| Emergency.EmergencyScreen.SecondElapsed | components/EmergencyMode.tsx:13-24 | the state ends as one second prescribes |
| Emergency.EmergencyScreen.StartEmergencySequence | components/EmergencyMode.tsx:37-39 | the step reaches 2 before the await |
| Emergency.EmergencyScreen.ReportResolved | components/EmergencyMode.tsx:40-46 | the state ends as the report arrival prescribes |
| Emergency.EmergencyScreen.Press | components/EmergencyMode.tsx:124-138 | the store is cancelled exactly when the gesture is accepted |
| SetupWizard.Open | components/Onboarding.tsx:8-14 | the wizard opens on step 1, prefilled from the stored profile, with empty contact inputs |
| SetupWizard.EditIdentity | components/Onboarding.tsx:9-10 | name and safe word can be edited only on step 1 |
| SetupWizard.EditContactFields | components/Onboarding.tsx:13-14 | the contact inputs can be edited only on step 2 |
| SetupWizard.AppendContact | components/Onboarding.tsx:18-24 | with both inputs filled, a "Family" contact is appended and the inputs cleared; otherwise nothing changes |
| SetupWizard.WithoutId | components/Onboarding.tsx:26-28 | removal by id never lengthens the list |
| SetupWizard.WithoutIdMembers | components/Onboarding.tsx:26-28 | removal keeps exactly the contacts with another id, and keeps the list when no contact has the id |
| SetupWizard.WithoutIdDistributes | components/Onboarding.tsx:26-28 | removal distributes over concatenation |
| SetupWizard.WithoutIdIdempotent | components/Onboarding.tsx:26-28 | removing twice is removing once |
| SetupWizard.RemoveUndoesAdd | components/Onboarding.tsx:18-28 | removing a freshly added contact's id restores the list |
| SetupWizard.DropContact | components/Onboarding.tsx:137 | contacts can be removed only on step 2 |
| SetupWizard.Advance | components/Onboarding.tsx:111-179 | Continue leaves step 1 only with name and safe word, and step 2 only with a contact |
| SetupWizard.Retreat | components/Onboarding.tsx:172-243 | Back goes from step 2 or 3 to the previous step |
| SetupWizard.FinishedProfile | components/Onboarding.tsx:30-37 | Finish, offered on step 3, saves the entered data marked complete |
| SetupWizard.ApplyKeepsConsistent | components/Onboarding.tsx:111-179 | past step 1 the identity is filled, and on step 3 there is a contact |
| SetupWizard.RunKeepsConsistent | components/Onboarding.tsx:111-179 | the same holds along any run |
| SetupWizard.FinishedProfileIsUsable | components/Onboarding.tsx:30-37 | a finished wizard saves a complete profile with name, safe word and contact, and the store moves to DASHBOARD |
| SetupWizard.OnboardingScreen.constructor | components/Onboarding.tsx:8-14 | the mounted wizard is the opened one |
| SetupWizard.OnboardingScreen.SetIdentity | components/Onboarding.tsx:9-10 | the state ends as the identity edit prescribes |
| SetupWizard.OnboardingScreen.SetContactFields | components/Onboarding.tsx:13-14 | the state ends as the contact edit prescribes |
| SetupWizard.OnboardingScreen.AddContact | components/Onboarding.tsx:18-24 | the state ends as adding a contact prescribes |
| SetupWizard.OnboardingScreen.RemoveContact | components/Onboarding.tsx:26-28 | the state ends as removing a contact prescribes |
| SetupWizard.OnboardingScreen.Continue | components/Onboarding.tsx:111-179 | the state ends as Continue prescribes |
| SetupWizard.OnboardingScreen.Back | components/Onboarding.tsx:172-243 | the state ends as Back prescribes |
| SetupWizard.OnboardingScreen.HandleFinish | components/Onboarding.tsx:30-37 | the store receives the finished profile, or nothing before step 3 |
| Calculator.Press | components/FakeInterface.tsx:19-22 | a lone zero is replaced by the key; otherwise the key is appended |
| Calculator.Calculate | components/FakeInterface.tsx:26-41 | the alarm fires exactly on 911, 0000 and 112; the exit exactly on 1234; otherwise the value or "Error" is shown |
| Calculator.CodesAreDistinct | components/FakeInterface.tsx:28-32 | the exit code is not an alarm code, and 911 and 112 fire whatever eval would give |
| Calculator.ApplyKeepsNoDoubleZero | components/FakeInterface.tsx:19-41 | no key, clear or evaluation produces a display opening with two zeros |
| Calculator.RunKeepsNoDoubleZero | components/FakeInterface.tsx:19-41 | the same holds along any run |
| Calculator.ZeroCodeUnreachable | components/FakeInterface.tsx:28 | 0000 never appears on the display, so only 911 and 112 can fire |
| Calculator.NineOneOneTriggers | components/FakeInterface.tsx:28-29 | typing 9, 1, 1 and "=" fires the alarm |
| Calculator.CalculatorScreen.constructor | components/FakeInterface.tsx:10 | the display starts at "0" |
| Calculator.CalculatorScreen.HandlePress | components/FakeInterface.tsx:19-22 | the display ends as the key press prescribes |
| Calculator.CalculatorScreen.Clear | components/FakeInterface.tsx:24 | the display returns to "0" |
| Calculator.CalculatorScreen.Equals | components/FakeInterface.tsx:26-41 | the callback and display are those of "=" |
| App.GetComponent | App.tsx:139-152 | ONBOARDING shows setup, EMERGENCY the emergency screen, DISCREET the calculator, DASHBOARD and PRE_ALERT the dashboard |
| App.ArmedScreens | App.tsx:115 | the detector listens only behind the dashboard or calculator, and always there once setup is complete |
| App.Boot | context/SafetyContext.tsx:42-64 | the system starts with the startup store, no latch, no timeout and a fresh detector |
| App.Deliver | components/AIDetector.tsx:138-145 | callbacks keep the profile; they change the mode only to EMERGENCY and only with a voice dispatch |
| App.Mount | App.tsx:115-131 | the detector keeps its refs while armed and is fresh otherwise |
| App.Commit | App.tsx:29-43 | a screen's store update followed by the timer effect and the re-render |
| App.Hear | App.tsx:117-128 | a recognition result reaches the detector only while it is armed, and its outputs reach the guardian's handlers |
| App.Step | App.tsx:115-152 | each event as the screens wire it: the SOS, discreet and settings buttons (components/Dashboard.tsx:115-170) only on an uncovered dashboard; "Cancel Manual" (components/Dashboard.tsx:221) only over a verification; calculator outcomes only on the calculator, where `Exit` stands for both the code 1234 and the double-tap exit area (components/FakeInterface.tsx:47-51); deactivation (components/EmergencyMode.tsx:124-138) only on the emergency screen; the detector's listening start only while it is mounted, its stop also after it unmounts |
| App.BootIsConsistent | context/SafetyContext.tsx:42-64 | the startup system satisfies the system invariant |
| App.DeliverTranscriptThenThreat | components/AIDetector.tsx:138-145 | the report is handled in the state the broadcast left |
| App.DeliverKeepsTimerInvariant | App.tsx:29-108 | delivering callbacks keeps one timeout per verifying state |
| App.StepKeepsInv | App.tsx:29-152 | every event keeps the timer invariant, a fresh detector while unarmed, and the 300-character history bound |
| App.RunKeepsInv | App.tsx:29-152 | the same holds along any run |
| App.DispatchSources | context/SafetyContext.tsx:132-136 | EMERGENCY is entered only with a dispatch; BUTTON_PRESS only from the SOS button, DISCREET_CODE only from the calculator, voice methods only from speech, timeout methods only from the expiry |
| App.HeardSources | App.tsx:87-96 | a recognition result dispatches only VOICE_SOS or VOICE_SILENT, and enters EMERGENCY only with a dispatch |
| App.TimerSources | App.tsx:29-43 | of the expiry, the latch and "Cancel Manual", only the expiry dispatches, and only an auto-timeout method |
| App.ScreenSources | App.tsx:139-152 | a press dispatches only the method of its own button: BUTTON_PRESS or DISCREET_CODE |
| App.OnlyDeactivateLeavesEmergency | components/EmergencyMode.tsx:124-138 | only deactivation leaves EMERGENCY, and it leads to DASHBOARD |
| App.SosButtonDispatches | components/Dashboard.tsx:135 | the SOS button on an uncovered dashboard dispatches BUTTON_PRESS and disarms listening |
| App.DiscreetCodeDispatches | App.tsx:146 | an alarm code on the calculator dispatches DISCREET_CODE even during a verification, and disarms the timeout |
| App.DiscreetVerificationHasNoManualCancel | components/Dashboard.tsx:202-224 | behind the calculator a verification ends only by speech, timeout or an alarm code |
| App.FinishingSetupArms | components/Onboarding.tsx:30-37 | finishing the wizard opens the dashboard, arms the detector with fresh refs and dispatches nothing |
| App.HistoryWordConfirmsNextResult | App.tsx:87-99 | while the history holds the safe word, the next result confirms a pending verification |
| App.TwiceReportsDanger | components/AIDetector.tsx:197-202 | the safe word said twice reports DANGER and stays in the history |
| App.FirstSegmentBroadcast | components/AIDetector.tsx:117-135 | a single final segment heard after an empty history is committed after a space and broadcast unchanged |
| App.TwiceRaisesVerification | App.tsx:64-69 | the safe word said twice on the dashboard opens a silent verification with its timeout |
| App.AnythingConfirmsAfterTwice | App.tsx:87-96 | after that, whatever single final segment is said next sends the silent alert, provided the safe word has no edge whitespace and the two words and the segment fit in the 300-character history |
| App.MonitoringDangerReport | App.tsx:57-69 | while monitoring, a broadcast followed by a DANGER report opens a silent verification with its timeout and dispatches nothing |
| App.StopAfterDangerConfirms | App.tsx:87-99 | saying "stop" after two safe words sends the silent alert instead of cancelling |
| App.ThirdWordConfirmsAndRearms | App.tsx:50-53 | a third safe word during a silent verification confirms it and leaves a VERIFYING_SOS timeout pending in EMERGENCY |
| App.DeactivationIsUndoneByTimeout | App.tsx:33-37 | deactivating then opens the dashboard under the SOS overlay, and the expiry dispatches again |
| App.DeliverOutputs | components/AIDetector.tsx:138-145 | the guardian object handles the broadcast and then the report, ending as the pure delivery prescribes |
| App.SafeWordThenCritical | App.tsx:50-53 | during a silent verification, a broadcast with the safe word followed by a CRITICAL report dispatches VOICE_SILENT and leaves a VERIFYING_SOS timeout pending in EMERGENCY |
| App.StopIsCancelPhrase | App.tsx:99 | "stop" is one of the cancel words |
| App.DeliverResult | components/AIDetector.tsx:105-145 | the detector object and guardian object end as the pure pipeline prescribes |

## Left out

- The speech-recognition lifecycle is not modelled. This covers browser support, start and stop, the automatic restart in `onend`, errors, and `recognitionRef` reuse. Listening changes become a `ListeningChanged` event, and recognition results arrive as `Heard` events.
- React closure staleness and render batching are not modelled: each event reads the current state. The code differs in three ways.
- The `onresult` handler is installed once per detector mount (components/AIDetector.tsx:52-60, 104). It keeps that render's `handleTranscript` and `handleThreatDetected` (App.tsx:46, 73), whose `guardianState` never changes afterwards. So a detector mounted while MONITORING never reaches the confirm and cancel branches (App.tsx:84-107), and the voice confirmations the model proves do not happen in the browser.
- `triggerSOS` is re-created on every provider render (context/SafetyContext.tsx:132) and is a dependency of the timer effect (App.tsx:43). So every store update, including each transcript's audio-state update, restarts the 10-second timeout, and ongoing speech postpones the automatic alarm. The model arms the timeout only when the guardian state changes.
- App.Deliver: the transcript and threat callbacks of one recognition result are applied one after the other, the report seeing the state the transcript left. In the code both run in the same render and read the same `guardianState` (App.tsx:46-107). So when a result both confirms a verification and reports DANGER (after a silence reset cleared the detector's memo) or CRITICAL during VERIFYING_SOS, the code's report handler still sees the verifying state and returns (App.tsx:57), ending in MONITORING with no timeout. The model instead applies the report to MONITORING, opens a new verification and arms a second automatic alarm. A CRITICAL report confirmed during VERIFYING_SILENT ends in VERIFYING_SOS in both (App.tsx:50-53).
- Abstract expiry events replace the real timers and the clock. One consequence: a timeout re-armed within the same verifying state looks the same as the original one.
- Speech synthesis, the siren, geolocation, the wake lock, the offline indicator and the copy-link buttons have no effect on the modelled state.
- The remote services (the threat analyzer and the report generator) and `eval` are not modelled. Their results enter as event parameters.
- The analyzer's answer is taken as a tier. Its reasoning text and unvalidated level strings are not modelled.
- The code does not discard a stale analyzer result.
- Nothing in the app calls `handleAnalysis`, so it is modelled in the detector only.
- The passive dashboard detector and its simulation box are not part of the system step. Its callbacks do nothing and detection is off in passive mode. The simulation is modelled for the detector alone.
- `localStorage` and JSON parsing are not modelled: a saved profile enters as an optional parameter of startup.
- `frequentLocations` is not modelled.
- Sentinel mode on the dashboard is not modelled, nor the hint timer of the calculator. Neither touches the store.
- Case folding covers ASCII letters only, and lengths count characters rather than UTF-16 units.
- Rendering, LiveMap and `toFixed` formatting are not modelled.
- Buttons that the current screen does not show, or that the dashboard's verification overlay covers, are modelled as no-ops.
- SetupWizard.WithoutId: the function's own contract states only that removal never lengthens the list. Membership and the other properties are proved in separate lemmas.
- Calculator.ZeroCodeUnreachable: it assumes that an evaluated display never begins with two zeros. `eval` itself is not modelled.
- App.HistoryWordConfirmsNextResult: proved only when the next final segment does not push the safe word out of the 300-character window.
- Detector.NextBroadcastRepeatsHistoryWord: proved only for a safe word without edge whitespace and when the final speech does not push the history past 300 characters; a truncation can cut the word out.
- App.AnythingConfirmsAfterTwice: proved only for one final segment, a safe word without edge whitespace, and when the two words and the segment fit in the 300-character history.
