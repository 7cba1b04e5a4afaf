/**
 * The text command parser of the TECS stack
 * (`control/parser/CommandParser.java`): `ON`, `OFF`, `ALT <ft>`, `HDG <deg>`
 * and `SPD <kt>`, matched case-insensitively after splitting on single
 * spaces.  Each command replaces the goal record as a whole.  A target the
 * goal does not hold yet is `None` (NaN in the source).  `ON` fills the
 * missing targets from telemetry.
 * `Double.parseDouble` is the parameter `parseDouble`, `None` standing for a
 * `NumberFormatException`.
 */
module Parser {
  import opened Wrappers
  import opened Text
  import opened Core

  /** The goal reference (possibly null) and the system status flag. */
  datatype ParserState = ParserState(goal: Option<FlightGoal>, active: bool)

  /** `command.toUpperCase().split(" ")`. */
  function Words(command: string): seq<string> {
    SplitOn(ToUpper(command), ' ')
  }

  /** A missing target is taken from the reading; a set one is kept. */
  function Fill(target: Option<real>, reading: real): (r: Option<real>)
    ensures r.Some?
    ensures target.Some? ==> r == target
    ensures target.None? ==> r == Some(reading)
  {
    if target.None? then Some(reading) else target
  }

  /** The state after `parse(command)`. */
  function Parse(s: ParserState, command: string, telemetry: Option<FlightTelemetry>,
                 parseDouble: string -> Option<real>): ParserState
  {
    var g := s.goal.GetOr(InitialGoal);
    var parts := Words(command);
    if |parts| < 1 then s
    else if parts[0] == "ON" then
      var filled :=
        if telemetry.None? then g
        else FlightGoal(Fill(g.targetAltitudeFt, telemetry.value.altitudeFt),
                        Fill(g.targetHeadingDeg, telemetry.value.headingDeg),
                        Fill(g.targetAirspeedKts, telemetry.value.airspeedKts));
      ParserState(Some(filled), true)
    else if parts[0] == "OFF" then s.(active := false)
    else if parts[0] in {"ALT", "HDG", "SPD"} then
      if |parts| < 2 || parseDouble(parts[1]).None? then s
      else
        var v := Some(parseDouble(parts[1]).value);
        var updated :=
          if parts[0] == "ALT" then g.(targetAltitudeFt := v)
          else if parts[0] == "HDG" then g.(targetHeadingDeg := v)
          else g.(targetAirspeedKts := v);
        s.(goal := Some(updated))
    else s
  }

  /** The command word is case-insensitive: parsing the upper-cased text gives the same result. */
  lemma {:induction false} ParseIgnoresCase(s: ParserState, command: string,
                                            telemetry: Option<FlightTelemetry>,
                                            parseDouble: string -> Option<real>)
    ensures Parse(s, ToUpper(command), telemetry, parseDouble) == Parse(s, command, telemetry, parseDouble)
  {
    ToUpperIdempotent(command);
  }

  /**
   * `<keyword> <value>` for ALT, HDG or SPD in any letter case sets exactly
   * that target to the parsed value and keeps the other two and the status;
   * an unparsable value changes nothing.
   */
  lemma {:induction false} ValueCommand(s: ParserState, keyword: string, arg: string,
                                        telemetry: Option<FlightTelemetry>,
                                        parseDouble: string -> Option<real>)
    requires ToUpper(keyword) in {"ALT", "HDG", "SPD"}
    requires ' ' !in arg && arg != ""
    ensures var r := Parse(s, keyword + " " + arg, telemetry, parseDouble);
            var g := s.goal.GetOr(InitialGoal);
            var v := parseDouble(ToUpper(arg));
            r.active == s.active
            && (v.None? ==> r == s)
            && (v.Some? && ToUpper(keyword) == "ALT" ==>
                  r.goal == Some(FlightGoal(v, g.targetHeadingDeg, g.targetAirspeedKts)))
            && (v.Some? && ToUpper(keyword) == "HDG" ==>
                  r.goal == Some(FlightGoal(g.targetAltitudeFt, v, g.targetAirspeedKts)))
            && (v.Some? && ToUpper(keyword) == "SPD" ==>
                  r.goal == Some(FlightGoal(g.targetAltitudeFt, g.targetHeadingDeg, v)))
  {
    var kw, a := ToUpper(keyword), ToUpper(arg);
    assert ' ' !in kw;
    ToUpperKeepsSpaces(arg);
    ToUpperConcat(keyword, " " + arg);
    ToUpperConcat(" ", arg);
    assert ToUpper(" ") == " ";
    assert ToUpper(keyword + " " + arg) == kw + [' '] + a by {
      assert keyword + " " + arg == keyword + (" " + arg);
    }
    assert a != "";
    SplitTwoWords(kw, a, ' ');
  }

  /**
   * A doubled blank after the keyword leaves an empty second word, which does
   * not parse as a number, so the command changes nothing.
   */
  lemma {:induction false} DoubledBlankChangesNothing(s: ParserState, keyword: string, rest: string,
                                                      telemetry: Option<FlightTelemetry>,
                                                      parseDouble: string -> Option<real>)
    requires ToUpper(keyword) in {"ALT", "HDG", "SPD"}
    requires parseDouble("").None?
    ensures Parse(s, keyword + "  " + rest, telemetry, parseDouble) == s
  {
    var kw := ToUpper(keyword);
    assert ' ' !in kw && kw != "";
    ToUpperConcat(keyword, "  " + rest);
    ToUpperConcat("  ", rest);
    assert ToUpper("  ") == [' ', ' '];
    assert keyword + "  " + rest == keyword + ("  " + rest);
    assert ToUpper(keyword + "  " + rest) == kw + [' ', ' '] + ToUpper(rest);
    SplitDoubledSeparator(kw, ToUpper(rest), ' ');
  }

  /** `<keyword>` alone for ALT, HDG or SPD changes nothing. */
  lemma {:induction false} ValueCommandWithoutValue(s: ParserState, keyword: string,
                                                    telemetry: Option<FlightTelemetry>,
                                                    parseDouble: string -> Option<real>)
    requires ToUpper(keyword) in {"ALT", "HDG", "SPD"}
    ensures Parse(s, keyword, telemetry, parseDouble) == s
  {
    assert ' ' !in ToUpper(keyword);
    SplitOneWord(ToUpper(keyword), ' ');
  }

  /**
   * `ON` switches the system on; with telemetry each missing target is taken
   * from it and each set target is kept, without telemetry the targets stay
   * as they are (all missing if there was no goal).
   */
  lemma {:induction false} OnCommand(s: ParserState, keyword: string, telemetry: Option<FlightTelemetry>,
                                     parseDouble: string -> Option<real>)
    requires ToUpper(keyword) == "ON"
    ensures var r := Parse(s, keyword, telemetry, parseDouble);
            var g := s.goal.GetOr(InitialGoal);
            r.active && r.goal.Some?
            && (telemetry.None? ==> r.goal.value == g)
            && (telemetry.Some? ==>
                  r.goal.value.targetAltitudeFt.Some? && r.goal.value.targetHeadingDeg.Some?
                  && r.goal.value.targetAirspeedKts.Some?
                  && (g.targetAltitudeFt.Some? ==> r.goal.value.targetAltitudeFt == g.targetAltitudeFt)
                  && (g.targetAltitudeFt.None? ==>
                        r.goal.value.targetAltitudeFt == Some(telemetry.value.altitudeFt))
                  && (g.targetHeadingDeg.Some? ==> r.goal.value.targetHeadingDeg == g.targetHeadingDeg)
                  && (g.targetHeadingDeg.None? ==>
                        r.goal.value.targetHeadingDeg == Some(telemetry.value.headingDeg))
                  && (g.targetAirspeedKts.Some? ==> r.goal.value.targetAirspeedKts == g.targetAirspeedKts)
                  && (g.targetAirspeedKts.None? ==>
                        r.goal.value.targetAirspeedKts == Some(telemetry.value.airspeedKts)))
  {
    assert ' ' !in ToUpper(keyword);
    SplitOneWord(ToUpper(keyword), ' ');
  }

  /**
   * `OFF` switches the system off and leaves the goal alone; a missing goal
   * stays missing, and `parse` then throws (`Throws`) after the switch.
   */
  lemma {:induction false} OffCommand(s: ParserState, keyword: string, telemetry: Option<FlightTelemetry>,
                                      parseDouble: string -> Option<real>)
    requires ToUpper(keyword) == "OFF"
    ensures Parse(s, keyword, telemetry, parseDouble) == s.(active := false)
  {
    assert ' ' !in ToUpper(keyword);
    SplitOneWord(ToUpper(keyword), ' ');
  }

  /** A first word that is not a command changes nothing. */
  lemma {:induction false} UnknownCommand(s: ParserState, command: string,
                                          telemetry: Option<FlightTelemetry>,
                                          parseDouble: string -> Option<real>)
    requires |Words(command)| >= 1 && Words(command)[0] !in {"ON", "OFF", "ALT", "HDG", "SPD"}
    ensures Parse(s, command, telemetry, parseDouble) == s
  {
  }

  /**
   * Whether `parse` reaches the closing `logGoal` call: ON, OFF, and ALT, HDG
   * or SPD with a value that parses.  A bare keyword, an unparsable value and
   * an unknown command leave `parse` before it.
   */
  predicate ReachesLog(command: string, parseDouble: string -> Option<real>) {
    var parts := Words(command);
    |parts| >= 1
    && (parts[0] in {"ON", "OFF"}
        || (parts[0] in {"ALT", "HDG", "SPD"} && |parts| >= 2 && parseDouble(parts[1]).Some?))
  }

  /**
   * Whether `parse` ends in a `NullPointerException`: `logGoal` reads the
   * fields of the goal it is given, and only `NumberFormatException` is
   * caught, so a null goal at that point escapes (after the switch has done
   * its work).
   */
  predicate Throws(s: ParserState, command: string, telemetry: Option<FlightTelemetry>,
                   parseDouble: string -> Option<real>) {
    ReachesLog(command, parseDouble) && Parse(s, command, telemetry, parseDouble).goal.None?
  }

  /** Only OFF can leave the goal null, so `parse` throws exactly on OFF without a goal. */
  lemma {:induction false} ThrowsOnlyOnOffWithoutGoal(s: ParserState, command: string,
                                                      telemetry: Option<FlightTelemetry>,
                                                      parseDouble: string -> Option<real>)
    ensures Throws(s, command, telemetry, parseDouble)
            <==> |Words(command)| >= 1 && Words(command)[0] == "OFF" && s.goal.None?
  {
    var parts := Words(command);
    if |parts| >= 1 && parts[0] == "OFF" {
      assert Parse(s, command, telemetry, parseDouble) == s.(active := false);
    } else if |parts| >= 1 && parts[0] == "ON" {
      assert Parse(s, command, telemetry, parseDouble).goal.Some?;
    } else if ReachesLog(command, parseDouble) {
      assert parts[0] in {"ALT", "HDG", "SPD"} && parts[0] != "ON" && parts[0] != "OFF";
      assert Parse(s, command, telemetry, parseDouble).goal.Some?;
    }
  }

  class CommandParser {
    var goal: Option<FlightGoal>
    var active: bool

    constructor (goal: Option<FlightGoal>, active: bool)
      ensures this.goal == goal && this.active == active
    {
      this.goal := goal;
      this.active := active;
    }

    method ParseCommand(command: string, telemetry: Option<FlightTelemetry>,
                        parseDouble: string -> Option<real>) returns (thrown: bool)
      modifies this
      ensures ParserState(goal, active) == Parse(old(ParserState(goal, active)), command, telemetry, parseDouble)
      ensures thrown == Throws(old(ParserState(goal, active)), command, telemetry, parseDouble)
    {
      ghost var before := ParserState(goal, active);
      thrown := false;
      var oldGoal := if goal.None? then InitialGoal else goal.value;
      var parts := SplitOn(ToUpper(command), ' ');
      assert parts == Words(command);
      if |parts| < 1 {
        return;
      }
      if parts[0] == "ON" {
        var targetAlt := oldGoal.targetAltitudeFt;
        var targetHdg := oldGoal.targetHeadingDeg;
        var targetSpd := oldGoal.targetAirspeedKts;
        if telemetry.Some? {
          if targetAlt.None? {
            targetAlt := Some(telemetry.value.altitudeFt);
          }
          if targetHdg.None? {
            targetHdg := Some(telemetry.value.headingDeg);
          }
          if targetSpd.None? {
            targetSpd := Some(telemetry.value.airspeedKts);
          }
        }
        goal := Some(FlightGoal(targetAlt, targetHdg, targetSpd));
        active := true;
        assert ParserState(goal, active) == Parse(before, command, telemetry, parseDouble);
      } else if parts[0] == "OFF" {
        active := false;
        assert ParserState(goal, active) == Parse(before, command, telemetry, parseDouble);
      } else if parts[0] in {"ALT", "HDG", "SPD"} {
        if |parts| < 2 {
          return;
        }
        var value := parseDouble(parts[1]);
        if value.None? {
          return;
        }
        if parts[0] == "ALT" {
          goal := Some(FlightGoal(value, oldGoal.targetHeadingDeg, oldGoal.targetAirspeedKts));
        } else if parts[0] == "HDG" {
          goal := Some(FlightGoal(oldGoal.targetAltitudeFt, value, oldGoal.targetAirspeedKts));
        } else {
          goal := Some(FlightGoal(oldGoal.targetAltitudeFt, oldGoal.targetHeadingDeg, value));
        }
        assert ParserState(goal, active) == Parse(before, command, telemetry, parseDouble);
      } else {
        return;
      }
      // `logGoal` dereferences the goal
      assert ReachesLog(command, parseDouble);
      thrown := goal.None?;
    }
  }
}
