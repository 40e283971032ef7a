/**
 * The disguised calculator (components/FakeInterface.tsx): keypad presses
 * build an expression on the display; "=" raises the alarm on the codes 911,
 * 0000 and 112, leaves the disguise on 1234, and otherwise shows the value
 * of the expression or "Error".
 */
module Calculator {
  import opened Types

  /** The display after mounting and after "C". */
  const Cleared: string := "0"

  /** What the keypad can send to handlePress. */
  const Keys: set<string> := {"/", "*", "-", "+", "7", "8", "9", "4", "5", "6", "1", "2", "3", "0", "."}

  /** The codes that call onTrigger. */
  const AlarmCodes: set<string> := {"911", "0000", "112"}

  /** The code that calls onExit. */
  const ExitCode: string := "1234"

  /** handlePress: a lone zero is replaced, anything else is extended. */
  function Press(display: string, key: string): (r: string)
    ensures display == Cleared ==> r == key
    ensures display != Cleared ==> |r| == |display| + |key| && r[..|display|] == display && r[|display|..] == key
  {
    if display == Cleared then key else display + key
  }

  /** The result of "=": a callback, or a new display. */
  datatype Outcome = Trigger | Exit | Show(display: string)

  /**
   * calculate. `evaluated` is what `String(eval(display))` returns, or None
   * when eval throws.
   */
  function Calculate(display: string, evaluated: Option<string>): (o: Outcome)
    ensures o == Trigger <==> display in AlarmCodes
    ensures o == Exit <==> display == ExitCode
    ensures o.Show? ==> o.display == (if evaluated.Some? then evaluated.value else "Error")
  {
    if display in AlarmCodes then Trigger
    else if display == ExitCode then Exit
    else Show(if evaluated.Some? then evaluated.value else "Error")
  }

  /** The alarm codes and the exit code are told apart before anything is evaluated. */
  lemma CodesAreDistinct()
    ensures ExitCode !in AlarmCodes
    ensures forall v :: Calculate("911", v) == Trigger && Calculate("112", v) == Trigger
    ensures forall v :: Calculate("1234", v) == Exit
  {
  }

  // ---------------------------------------------------------------------
  // Which displays the keypad can produce
  // ---------------------------------------------------------------------

  /** The display does not open with two zeros. */
  predicate NoDoubleZero(d: string) {
    !(|d| >= 2 && d[0] == '0' && d[1] == '0')
  }

  datatype CalcEvent = Key(key: string) | Clear | Equals(evaluated: Option<string>)

  function Apply(display: string, e: CalcEvent): string {
    match e
    case Key(k) => Press(display, k)
    case Clear => Cleared
    case Equals(v) =>
      var o := Calculate(display, v);
      if o.Show? then o.display else display
  }

  function Run(display: string, evs: seq<CalcEvent>): string
    decreases |evs|
  {
    if evs == [] then display else Run(Apply(display, evs[0]), evs[1..])
  }

  /**
   * The events the screen can receive: keypad keys, and evaluation results
   * as JavaScript prints numbers, which never begin with two zeros.
   */
  predicate Feasible(evs: seq<CalcEvent>) {
    forall i :: 0 <= i < |evs| ==>
      (evs[i].Key? ==> evs[i].key in Keys)
      && (evs[i].Equals? && evs[i].evaluated.Some? ==> NoDoubleZero(evs[i].evaluated.value))
  }

  lemma ApplyKeepsNoDoubleZero(display: string, e: CalcEvent)
    requires NoDoubleZero(display)
    requires e.Key? ==> e.key in Keys
    requires e.Equals? && e.evaluated.Some? ==> NoDoubleZero(e.evaluated.value)
    ensures NoDoubleZero(Apply(display, e))
  {
    if e.Key? && display != Cleared {
      var r := Press(display, e.key);
      if |display| == 1 {
        assert r[0] == display[0];
      } else if |display| >= 2 {
        assert r[0] == display[0] && r[1] == display[1];
      }
    }
    if e.Equals? {
      assert NoDoubleZero("Error");
    }
  }

  /** From a cleared display, no sequence of key presses, clears and evaluations ever shows two leading zeros. */
  lemma {:induction false} RunKeepsNoDoubleZero(display: string, evs: seq<CalcEvent>)
    requires NoDoubleZero(display) && Feasible(evs)
    ensures NoDoubleZero(Run(display, evs))
    decreases |evs|
  {
    if evs != [] {
      ApplyKeepsNoDoubleZero(display, evs[0]);
      assert Feasible(evs[1..]) by {
        forall i | 0 <= i < |evs[1..]|
          ensures (evs[1..][i].Key? ==> evs[1..][i].key in Keys)
            && (evs[1..][i].Equals? && evs[1..][i].evaluated.Some? ==> NoDoubleZero(evs[1..][i].evaluated.value))
        {
          assert evs[1..][i] == evs[i + 1];
        }
      }
      RunKeepsNoDoubleZero(Apply(display, evs[0]), evs[1..]);
    }
  }

  /** The code 0000 is listed, but pressing "=" after any keypad input never fires it. */
  lemma ZeroCodeUnreachable(evs: seq<CalcEvent>, v: Option<string>)
    requires Feasible(evs)
    ensures Run(Cleared, evs) != "0000"
    ensures Calculate(Run(Cleared, evs), v) == Trigger ==> Run(Cleared, evs) in {"911", "112"}
  {
    RunKeepsNoDoubleZero(Cleared, evs);
  }

  /** Typing 9, 1, 1 on a cleared display and pressing "=" raises the alarm. */
  lemma NineOneOneTriggers(v: Option<string>)
    ensures Calculate(Press(Press(Press(Cleared, "9"), "1"), "1"), v) == Trigger
  {
    assert Press(Press(Press(Cleared, "9"), "1"), "1") == "911";
  }

  // ---------------------------------------------------------------------
  // The mounted screen
  // ---------------------------------------------------------------------

  class CalculatorScreen {
    var display: string

    constructor ()
      ensures display == Cleared
    {
      display := Cleared;
    }

    method HandlePress(key: string)
      modifies this
      ensures display == Press(old(display), key)
    {
      if display == Cleared {
        display := key;
      } else {
        display := display + key;
      }
    }

    method Clear()
      modifies this
      ensures display == Cleared
    {
      display := Cleared;
    }

    /** "=": which callback fires, if any; the display shows the result otherwise. */
    method Equals(evaluated: Option<string>) returns (o: Outcome)
      modifies this
      ensures o == Calculate(old(display), evaluated)
      ensures display == if o.Show? then o.display else old(display)
    {
      if display == "911" || display == "0000" || display == "112" {
        o := Trigger;
      } else if display == ExitCode {
        o := Exit;
      } else if evaluated.Some? {
        display := evaluated.value;
        o := Show(display);
      } else {
        display := "Error";
        o := Show(display);
      }
    }
  }
}
