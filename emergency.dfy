/**
 * The emergency screen (components/EmergencyMode.tsx): a five-second
 * countdown during which one click cancels, then a one-shot dispatch
 * sequence (call and packet generation, the awaited incident report, the
 * contact broadcast) whose progress is shown as rows of a status board;
 * after the countdown only a double click deactivates.
 */
module Emergency {
  import opened Types
  import opened SafetyContext

  const CountdownStart: nat := 5

  /** countdown, statusStep and aiReport. */
  datatype Sequence = Sequence(countdown: nat, statusStep: nat, aiReport: string)

  const InitialSequence: Sequence := Sequence(CountdownStart, 0, "")

  /**
   * The sequence effect after a render: at zero with nothing started, steps
   * 1 and 2 are set in the same synchronous run and the report is awaited.
   */
  function StartIfDue(s: Sequence): (r: Sequence)
    ensures s.countdown == 0 && s.statusStep == 0 ==> r == s.(statusStep := 2)
    ensures !(s.countdown == 0 && s.statusStep == 0) ==> r == s
  {
    if s.countdown == 0 && s.statusStep == 0 then s.(statusStep := 2) else s
  }

  /** One second elapses: the timer only runs while the countdown is positive. */
  function Tick(s: Sequence): (r: Sequence)
    ensures s.countdown == 0 ==> r == s
    ensures s.countdown > 0 ==> r.countdown == s.countdown - 1 && r.aiReport == s.aiReport
    ensures s.countdown > 0 ==> r.statusStep == (if s.countdown == 1 && s.statusStep == 0 then 2 else s.statusStep)
  {
    if s.countdown > 0 then StartIfDue(s.(countdown := s.countdown - 1)) else s
  }

  /** The awaited report resolves: it is stored and the contact step follows. */
  function ReportArrived(s: Sequence, report: string): (r: Sequence)
    ensures s.statusStep == 2 ==> r == Sequence(s.countdown, 3, report)
    ensures s.statusStep != 2 ==> r == s
  {
    if s.statusStep == 2 then s.(aiReport := report, statusStep := 3) else s
  }

  datatype RowStatus = Pending | Active | Completed

  /** The "AI Incident Report" row. */
  function ReportRow(s: Sequence): (st: RowStatus)
    ensures st == Completed <==> s.statusStep >= 2 && s.aiReport != ""
    ensures st == Active <==> s.statusStep >= 2 && s.aiReport == ""
  {
    if s.statusStep >= 2 then (if s.aiReport != "" then Completed else Active) else Pending
  }

  /** The "Contact Broadcast" row. */
  function ContactRow(s: Sequence): (st: RowStatus)
    ensures st == Completed <==> s.statusStep >= 3
    ensures st != Active
  {
    if s.statusStep >= 3 then Completed else Pending
  }

  /** The icon colour of a status row. */
  function StatusColor(st: RowStatus): (c: string)
    ensures c == "text-emerald-400" <==> st == Completed
    ensures c == "text-yellow-400" <==> st == Active
    ensures c == "text-slate-600" <==> st == Pending
  {
    assert "text-slate-600" != "text-yellow-400" by { assert |"text-slate-600"| != |"text-yellow-400"|; }
    assert "text-slate-600" != "text-emerald-400" by { assert |"text-slate-600"| != |"text-emerald-400"|; }
    assert "text-yellow-400" != "text-emerald-400" by { assert |"text-yellow-400"| != |"text-emerald-400"|; }
    match st
    case Completed => "text-emerald-400"
    case Active => "text-yellow-400"
    case Pending => "text-slate-600"
  }

  datatype Gesture = Click | DoubleClick

  /**
   * Whether the footer button calls cancelSOS: during the countdown it reacts
   * to a click (a double click begins with clicks); afterwards only to a
   * double click.
   */
  function CancelAccepted(s: Sequence, g: Gesture): (ok: bool)
    ensures s.countdown > 0 ==> ok
    ensures s.countdown == 0 ==> (ok <==> g == DoubleClick)
  {
    s.countdown > 0 || g == DoubleClick
  }

  // ---------------------------------------------------------------------
  // Properties of every reachable state
  // ---------------------------------------------------------------------

  datatype ScreenEvent = Second | Report(text: string)

  function Apply(s: Sequence, e: ScreenEvent): Sequence {
    match e
    case Second => Tick(s)
    case Report(text) => ReportArrived(s, text)
  }

  function Run(s: Sequence, evs: seq<ScreenEvent>): Sequence
    decreases |evs|
  {
    if evs == [] then s else Run(Apply(s, evs[0]), evs[1..])
  }

  /**
   * The countdown stays within 0..5; the sequence has started exactly when
   * the countdown has ended; a report is stored only once the contact step
   * has been reached.
   */
  predicate Reachable(s: Sequence) {
    && s.countdown <= CountdownStart
    && s.statusStep in {0, 2, 3}
    && (s.statusStep == 0 <==> s.countdown > 0)
    && (s.statusStep < 3 ==> s.aiReport == "")
  }

  lemma InitialIsReachable()
    ensures Reachable(InitialSequence)
  {
  }

  lemma ApplyKeepsReachable(s: Sequence, e: ScreenEvent)
    requires Reachable(s)
    ensures Reachable(Apply(s, e))
    ensures Apply(s, e).statusStep >= s.statusStep
    ensures Apply(s, e).countdown <= s.countdown
  {
  }

  /** Along any run the countdown never rises and the status step never falls back. */
  lemma {:induction false} RunKeepsReachable(s: Sequence, evs: seq<ScreenEvent>)
    requires Reachable(s)
    ensures Reachable(Run(s, evs))
    ensures Run(s, evs).statusStep >= s.statusStep
    ensures Run(s, evs).countdown <= s.countdown
    decreases |evs|
  {
    if evs != [] {
      ApplyKeepsReachable(s, evs[0]);
      RunKeepsReachable(Apply(s, evs[0]), evs[1..]);
    }
  }

  /** A completed incident report is never shown beside a pending contact broadcast. */
  lemma ReportCompletedImpliesContactsCompleted(s: Sequence)
    requires Reachable(s)
    ensures ReportRow(s) == Completed ==> ContactRow(s) == Completed
    ensures ContactRow(s) == Completed && s.aiReport == "" ==> ReportRow(s) == Active
  {
  }

  /** Five seconds after mounting, the dispatch sequence is under way. */
  lemma FiveSecondsStartDispatch()
    ensures Run(InitialSequence, [Second, Second, Second, Second, Second]) == Sequence(0, 2, "")
  {
    var evs: seq<ScreenEvent> := [Second, Second, Second, Second, Second];
    assert evs[1..] == [Second, Second, Second, Second];
    assert evs[1..][1..] == [Second, Second, Second];
    assert evs[1..][1..][1..] == [Second, Second];
    assert evs[1..][1..][1..][1..] == [Second];
  }

  /** How many times a run starts the dispatch sequence. */
  function Starts(s: Sequence, evs: seq<ScreenEvent>): nat
    decreases |evs|
  {
    if evs == [] then 0
    else
      var next := Apply(s, evs[0]);
      (if s.statusStep == 0 && next.statusStep != 0 then 1 else 0) + Starts(next, evs[1..])
  }

  /** The dispatch sequence runs at most once per mount. */
  lemma {:induction false} SequenceStartsAtMostOnce(s: Sequence, evs: seq<ScreenEvent>)
    requires Reachable(s)
    ensures Starts(s, evs) <= (if s.statusStep == 0 then 1 else 0)
    decreases |evs|
  {
    if evs != [] {
      var next := Apply(s, evs[0]);
      ApplyKeepsReachable(s, evs[0]);
      SequenceStartsAtMostOnce(next, evs[1..]);
    }
  }

  // ---------------------------------------------------------------------
  // The mounted screen
  // ---------------------------------------------------------------------

  class EmergencyScreen {
    const store: SafetyStore
    var countdown: nat
    var statusStep: nat
    var aiReport: string

    function State(): Sequence
      reads this
    {
      Sequence(countdown, statusStep, aiReport)
    }

    constructor (store: SafetyStore)
      ensures State() == InitialSequence && this.store == store
    {
      this.store := store;
      countdown := CountdownStart;
      statusStep := 0;
      aiReport := "";
    }

    /** The countdown timer fires, then the sequence effect runs on the new countdown. */
    method SecondElapsed()
      modifies this
      ensures State() == Tick(old(State()))
    {
      if countdown > 0 {
        countdown := countdown - 1;
        if countdown == 0 && statusStep == 0 {
          StartEmergencySequence();
        }
      }
    }

    /** startEmergencySequence up to its await. */
    method StartEmergencySequence()
      modifies this
      ensures State() == old(State()).(statusStep := 2)
    {
      statusStep := 1;
      statusStep := 2;
    }

    /** The awaited report resolves. */
    method ReportResolved(report: string)
      modifies this
      ensures State() == ReportArrived(old(State()), report)
    {
      if statusStep == 2 {
        aiReport := report;
        statusStep := 3;
      }
    }

    /** The footer button receives a gesture. */
    method Press(g: Gesture)
      modifies store
      ensures store.Snapshot() == if CancelAccepted(State(), g) then ApplyCancelSos(old(store.Snapshot())) else old(store.Snapshot())
    {
      if countdown > 0 || g == DoubleClick {
        store.CancelSos();
      }
    }
  }
}
