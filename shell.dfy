/**
 * The operator shell (`domain/Shell.java`): `SYS`, `HDG`, `ALT`, `SPD`, `LLM`
 * and `ASK` commands, matched after trimming, upper-casing and splitting on
 * runs of whitespace.  The dispatch is the pure `Interpret`, which gives the
 * reply and the one effect it asks for.  `Shell.Execute` performs that effect
 * on the flight computer or on the shell's own `llmEnabled` flag.
 * Replies that print a number carry the number rather than its
 * `String.format` text.
 */
module CommandShell {
  import opened Wrappers
  import opened Text
  import opened Numeric
  import opened Headings
  import opened Domain
  import opened FlightComputer

  datatype Reply =
    | Say(text: string)
    | HeadingSet(degrees: real)   // "Heading set to %.1f degrees"
    | AltitudeSet(feet: real)     // "Altitude set to %.0f feet"
    | AirspeedSet(knots: real)    // "Airspeed set to %.0f knots"

  /** The one change a command makes. */
  datatype Action =
    | NoAction
    | SystemOn
    | SystemOff
    | SetHeading(heading: real)
    | SetAltitude(altitude: real)
    | SetSpeed(speed: real)
    | LlmOn
    | LlmOff

  datatype Outcome = Outcome(reply: Reply, action: Action)

  /** A reply of the form "ERROR: ...". */
  predicate IsError(r: Reply) {
    r.Say? && |r.text| >= 7 && r.text[..7] == "ERROR: "
  }

  function Refuse(text: string): Outcome {
    Outcome(Say("ERROR: " + text), NoAction)
  }

  /** `command.trim().toUpperCase().split("\\s+")`. */
  function ShellWords(command: string): seq<string> {
    SplitOnWhitespace(ToUpper(Trim(command)))
  }

  /** `executeSys`. */
  function Sys(parts: seq<string>): Outcome {
    if |parts| < 2 then Refuse("SYS requires ON or OFF argument")
    else if parts[1] == "ON" then Outcome(Say("System enabled"), SystemOn)
    else if parts[1] == "OFF" then Outcome(Say("System disabled"), SystemOff)
    else Refuse("Invalid SYS argument '" + parts[1] + "'. Use ON or OFF")
  }

  /** `executeHdg`: the parsed heading is normalised into [0, 360) first. */
  function Hdg(parts: seq<string>, parseDouble: string -> Option<real>): Outcome {
    if |parts| < 2 then Refuse("HDG requires a heading value in degrees")
    else match parseDouble(parts[1])
      case None => Refuse("Invalid heading value '" + parts[1] + "'")
      case Some(v) =>
        var heading := NormalizeHeading(v);
        Outcome(HeadingSet(heading), SetHeading(heading))
  }

  /** `executeAlt`. */
  function Alt(parts: seq<string>, parseDouble: string -> Option<real>): Outcome {
    if |parts| < 2 then Refuse("ALT requires an altitude value in feet")
    else match parseDouble(parts[1])
      case None => Refuse("Invalid altitude value '" + parts[1] + "'")
      case Some(v) => Outcome(AltitudeSet(v), SetAltitude(v))
  }

  /** `executeSpd`. */
  function Spd(parts: seq<string>, parseDouble: string -> Option<real>): Outcome {
    if |parts| < 2 then Refuse("SPD requires an airspeed value in knots")
    else match parseDouble(parts[1])
      case None => Refuse("Invalid airspeed value '" + parts[1] + "'")
      case Some(v) => Outcome(AirspeedSet(v), SetSpeed(v))
  }

  /** `executeLlm`. */
  function Llm(parts: seq<string>): Outcome {
    if |parts| < 2 then Refuse("LLM requires ON or OFF argument")
    else if parts[1] == "ON" then Outcome(Say("LLM control enabled"), LlmOn)
    else if parts[1] == "OFF" then Outcome(Say("LLM control disabled"), LlmOff)
    else Refuse("Invalid LLM argument '" + parts[1] + "'. Use ON or OFF")
  }

  /** `executeAsk`: the text after the first "ASK" (in any case) of the original command, trimmed. */
  function Ask(command: string): Outcome {
    match IndexOf(ToUpper(command), "ASK")
    case None => Refuse("Invalid ASK command")
    case Some(i) =>
      var promptStart := i + 3;
      if promptStart >= |command| then Refuse("ASK requires a prompt")
      else
        var prompt := Trim(command[promptStart..]);
        if prompt == "" then Refuse("ASK requires a prompt")
        else Outcome(Say("ASK prompt received: \"" + prompt + "\" (LLM integration pending)"), NoAction)
  }

  /** The dispatch on the first word of a non-blank command. */
  function Dispatch(parts: seq<string>, command: string, parseDouble: string -> Option<real>): Outcome {
    if |parts| == 0 then Refuse("Empty command")
    else if parts[0] == "SYS" then Sys(parts)
    else if parts[0] == "HDG" then Hdg(parts, parseDouble)
    else if parts[0] == "ALT" then Alt(parts, parseDouble)
    else if parts[0] == "SPD" then Spd(parts, parseDouble)
    else if parts[0] == "LLM" then Llm(parts)
    else if parts[0] == "ASK" then Ask(command)
    else Refuse("Unknown command '" + parts[0] + "'")
  }

  /** `execute`, with `None` for a null command. */
  function Interpret(command: Option<string>, parseDouble: string -> Option<real>): Outcome {
    if command.None? || IsBlank(command.value) then Refuse("Empty command")
    else Dispatch(ShellWords(command.value), command.value, parseDouble)
  }

  /** What a command can change: the computer's goal and navigator, and the LLM flag. */
  datatype ShellView = ShellView(goal: Goal, navigator: Navigator, llmEnabled: bool)

  /** The view after an action. */
  function After(a: Action, v: ShellView): (w: ShellView)
    ensures a == NoAction ==> w == v
    ensures a.SetHeading? ==> w == v.(goal := Goal(v.goal.altitude, v.goal.speed, a.heading))
    ensures a.SetAltitude? ==> w == v.(goal := Goal(a.altitude, v.goal.speed, v.goal.heading))
    ensures a.SetSpeed? ==> w == v.(goal := Goal(v.goal.altitude, a.speed, v.goal.heading))
    ensures a == SystemOn ==> w == v.(navigator := ActiveNavigator("AUTONOMOUS"))
    ensures a == SystemOff ==> w == v.(navigator := InactiveNavigator)
    ensures a == LlmOn ==> w == v.(llmEnabled := true)
    ensures a == LlmOff ==> w == v.(llmEnabled := false)
  {
    match a
    case NoAction => v
    case SystemOn => v.(navigator := ActiveNavigator("AUTONOMOUS"))
    case SystemOff => v.(navigator := InactiveNavigator)
    case SetHeading(h) => v.(goal := v.goal.(heading := h))
    case SetAltitude(x) => v.(goal := v.goal.(altitude := x))
    case SetSpeed(x) => v.(goal := v.goal.(speed := x))
    case LlmOn => v.(llmEnabled := true)
    case LlmOff => v.(llmEnabled := false)
  }

  /** An error reply changes nothing, and only a reply in words can come without a change. */
  predicate Consistent(o: Outcome) {
    (IsError(o.reply) ==> o.action == NoAction) && (o.action == NoAction ==> o.reply.Say?)
  }

  /** A refusal is an error reply and changes nothing. */
  lemma {:induction false} RefuseConsistent(text: string)
    ensures IsError(Refuse(text).reply) && Consistent(Refuse(text))
  {
    assert ("ERROR: " + text)[..7] == "ERROR: ";
  }

  lemma {:induction false} SysConsistent(parts: seq<string>)
    ensures Consistent(Sys(parts))
  {
    if |parts| < 2 {
      RefuseConsistent("SYS requires ON or OFF argument");
    } else if parts[1] == "ON" {
      assert "System enabled"[0] == 'S';
    } else if parts[1] == "OFF" {
      assert "System disabled"[0] == 'S';
    } else {
      RefuseConsistent("Invalid SYS argument '" + parts[1] + "'. Use ON or OFF");
    }
  }

  lemma {:induction false} LlmConsistent(parts: seq<string>)
    ensures Consistent(Llm(parts))
  {
    if |parts| < 2 {
      RefuseConsistent("LLM requires ON or OFF argument");
    } else if parts[1] == "ON" {
      assert "LLM control enabled"[0] == 'L';
    } else if parts[1] == "OFF" {
      assert "LLM control disabled"[0] == 'L';
    } else {
      RefuseConsistent("Invalid LLM argument '" + parts[1] + "'. Use ON or OFF");
    }
  }

  lemma {:induction false} ValuesConsistent(parts: seq<string>, parseDouble: string -> Option<real>)
    ensures Consistent(Hdg(parts, parseDouble)) && Consistent(Alt(parts, parseDouble))
    ensures Consistent(Spd(parts, parseDouble))
  {
    if |parts| < 2 {
      RefuseConsistent("HDG requires a heading value in degrees");
      RefuseConsistent("ALT requires an altitude value in feet");
      RefuseConsistent("SPD requires an airspeed value in knots");
    } else if parseDouble(parts[1]).None? {
      RefuseConsistent("Invalid heading value '" + parts[1] + "'");
      RefuseConsistent("Invalid altitude value '" + parts[1] + "'");
      RefuseConsistent("Invalid airspeed value '" + parts[1] + "'");
    }
  }

  lemma {:induction false} AskConsistent(command: string)
    ensures Consistent(Ask(command))
  {
    match IndexOf(ToUpper(command), "ASK")
    case None => RefuseConsistent("Invalid ASK command");
    case Some(i) =>
      if i + 3 >= |command| || Trim(command[i + 3..]) == "" {
        RefuseConsistent("ASK requires a prompt");
      } else {
        assert "ASK prompt received: \""[0] == 'A';
      }
  }

  lemma {:induction false} DispatchConsistent(parts: seq<string>, command: string,
                                               parseDouble: string -> Option<real>)
    ensures Consistent(Dispatch(parts, command, parseDouble))
  {
    if |parts| == 0 {
      RefuseConsistent("Empty command");
    } else {
      var o := Dispatch(parts, command, parseDouble);
      SysConsistent(parts);
      ValuesConsistent(parts, parseDouble);
      LlmConsistent(parts);
      AskConsistent(command);
      RefuseConsistent("Unknown command '" + parts[0] + "'");
      assert o in {Sys(parts), Hdg(parts, parseDouble), Alt(parts, parseDouble), Spd(parts, parseDouble),
                   Llm(parts), Ask(command), Refuse("Unknown command '" + parts[0] + "'")};
    }
  }

  /** Every "ERROR: ..." reply leaves everything as it was, and every change is reported. */
  lemma {:induction false} ErrorsChangeNothing(command: Option<string>, parseDouble: string -> Option<real>)
    ensures IsError(Interpret(command, parseDouble).reply) ==> Interpret(command, parseDouble).action == NoAction
    ensures Interpret(command, parseDouble).action == NoAction ==> Interpret(command, parseDouble).reply.Say?
  {
    if command.Some? && !IsBlank(command.value) {
      DispatchConsistent(ShellWords(command.value), command.value, parseDouble);
    }
  }

  /** A null or blank command is refused as empty. */
  lemma {:induction false} BlankIsEmpty(command: Option<string>, parseDouble: string -> Option<real>)
    requires command.None? || IsBlank(command.value)
    ensures Interpret(command, parseDouble) == Outcome(Say("ERROR: Empty command"), NoAction)
    ensures IsError(Interpret(command, parseDouble).reply)
  {
    assert "ERROR: " + "Empty command" == "ERROR: Empty command";
  }

  /**
   * HDG stores the normalised heading: a value in [0, 360) pointing the same
   * way as the one typed, and the reply echoes it.
   */
  lemma {:induction false} HeadingIsNormalised(command: string, parseDouble: string -> Option<real>)
    requires !IsBlank(command)
    ensures var o := Interpret(Some(command), parseDouble);
            var parts := ShellWords(command);
            o.action.SetHeading? ==>
              |parts| >= 2 && parts[0] == "HDG" && parseDouble(parts[1]).Some?
              && 0.0 <= o.action.heading < 360.0
              && WholeTurns(parseDouble(parts[1]).value - o.action.heading)
              && o.reply == HeadingSet(o.action.heading)
  {
    var parts := ShellWords(command);
    OnlyHdgSetsHeading(parts, command, parseDouble);
    if |parts| >= 2 && parts[0] == "HDG" && parseDouble(parts[1]).Some? {
      DispatchOnKeyword(parts, command, parseDouble);
      NormalizeHeadingSpec(parseDouble(parts[1]).value);
    }
  }

  /** Only an HDG command with a number sets the heading. */
  lemma {:induction false} OnlyHdgSetsHeading(parts: seq<string>, command: string,
                                               parseDouble: string -> Option<real>)
    ensures Dispatch(parts, command, parseDouble).action.SetHeading? ==>
              |parts| >= 2 && parts[0] == "HDG" && parseDouble(parts[1]).Some?
  {
    if |parts| >= 1 && parts[0] != "HDG" {
      AskChangesNothing(command);
      DispatchOnKeyword(parts, command, parseDouble);
      var o := Dispatch(parts, command, parseDouble);
      assert !Sys(parts).action.SetHeading? && !Alt(parts, parseDouble).action.SetHeading?;
      assert !Spd(parts, parseDouble).action.SetHeading? && !Llm(parts).action.SetHeading?;
      if parts[0] !in {"SYS", "ALT", "SPD", "LLM", "ASK"} {
        DispatchUnknown(parts, command, parseDouble);
      }
    } else if |parts| >= 1 {
      DispatchOnKeyword(parts, command, parseDouble);
    }
  }

  /** An unknown first word is refused by name, in upper case, and changes nothing. */
  lemma {:induction false} UnknownCommandRefused(command: string, parseDouble: string -> Option<real>)
    requires !IsBlank(command)
    requires |ShellWords(command)| >= 1
    requires ShellWords(command)[0] !in {"SYS", "HDG", "ALT", "SPD", "LLM", "ASK"}
    ensures Interpret(Some(command), parseDouble) == Refuse("Unknown command '" + ShellWords(command)[0] + "'")
    ensures IsError(Interpret(Some(command), parseDouble).reply)
  {
    var w := ShellWords(command)[0];
    DispatchUnknown(ShellWords(command), command, parseDouble);
    RefuseConsistent("Unknown command '" + w + "'");
  }

  lemma {:induction false} DispatchUnknown(parts: seq<string>, command: string, parseDouble: string -> Option<real>)
    requires |parts| >= 1 && parts[0] !in {"SYS", "HDG", "ALT", "SPD", "LLM", "ASK"}
    ensures Dispatch(parts, command, parseDouble) == Refuse("Unknown command '" + parts[0] + "'")
  {
  }

  /** SYS and LLM take only ON or OFF; anything else, or nothing, is refused and changes nothing. */
  lemma {:induction false} SwitchNeedsOnOrOff(command: string, parseDouble: string -> Option<real>)
    requires !IsBlank(command)
    requires |ShellWords(command)| >= 1 && ShellWords(command)[0] in {"SYS", "LLM"}
    requires |ShellWords(command)| < 2 || ShellWords(command)[1] !in {"ON", "OFF"}
    ensures IsError(Interpret(Some(command), parseDouble).reply)
    ensures Interpret(Some(command), parseDouble).action == NoAction
  {
    var parts := ShellWords(command);
    DispatchOnKeyword(parts, command, parseDouble);
    if |parts| < 2 {
      RefuseConsistent("SYS requires ON or OFF argument");
      RefuseConsistent("LLM requires ON or OFF argument");
    } else {
      RefuseConsistent("Invalid SYS argument '" + parts[1] + "'. Use ON or OFF");
      RefuseConsistent("Invalid LLM argument '" + parts[1] + "'. Use ON or OFF");
    }
  }

  /** HDG, ALT and SPD without a number, or with one that does not parse, are refused and change nothing. */
  lemma {:induction false} ValueNeedsNumber(command: string, parseDouble: string -> Option<real>)
    requires !IsBlank(command)
    requires |ShellWords(command)| >= 1 && ShellWords(command)[0] in {"HDG", "ALT", "SPD"}
    requires |ShellWords(command)| < 2 || parseDouble(ShellWords(command)[1]).None?
    ensures IsError(Interpret(Some(command), parseDouble).reply)
    ensures Interpret(Some(command), parseDouble).action == NoAction
  {
    var parts := ShellWords(command);
    DispatchOnKeyword(parts, command, parseDouble);
    ValuesConsistent(parts, parseDouble);
    if |parts| < 2 {
      RefuseConsistent("HDG requires a heading value in degrees");
      RefuseConsistent("ALT requires an altitude value in feet");
      RefuseConsistent("SPD requires an airspeed value in knots");
    } else {
      RefuseConsistent("Invalid heading value '" + parts[1] + "'");
      RefuseConsistent("Invalid altitude value '" + parts[1] + "'");
      RefuseConsistent("Invalid airspeed value '" + parts[1] + "'");
    }
  }

  /** ALT and SPD pass the parsed value through unchanged. */
  lemma {:induction false} AltitudeAndSpeedPassThrough(command: string, parseDouble: string -> Option<real>)
    requires !IsBlank(command)
    requires |ShellWords(command)| >= 2 && parseDouble(ShellWords(command)[1]).Some?
    ensures var v := parseDouble(ShellWords(command)[1]).value;
            (ShellWords(command)[0] == "ALT" ==> Interpret(Some(command), parseDouble).action == SetAltitude(v))
            && (ShellWords(command)[0] == "SPD" ==> Interpret(Some(command), parseDouble).action == SetSpeed(v))
  {
    DispatchOnKeyword(ShellWords(command), command, parseDouble);
  }

  /** The dispatch on each of the six keywords. */
  lemma {:induction false} DispatchOnKeyword(parts: seq<string>, command: string, parseDouble: string -> Option<real>)
    requires |parts| >= 1
    ensures parts[0] == "SYS" ==> Dispatch(parts, command, parseDouble) == Sys(parts)
    ensures parts[0] == "HDG" ==> Dispatch(parts, command, parseDouble) == Hdg(parts, parseDouble)
    ensures parts[0] == "ALT" ==> Dispatch(parts, command, parseDouble) == Alt(parts, parseDouble)
    ensures parts[0] == "SPD" ==> Dispatch(parts, command, parseDouble) == Spd(parts, parseDouble)
    ensures parts[0] == "LLM" ==> Dispatch(parts, command, parseDouble) == Llm(parts)
    ensures parts[0] == "ASK" ==> Dispatch(parts, command, parseDouble) == Ask(command)
  {
  }

  lemma {:induction false} AskChangesNothing(command: string)
    ensures Ask(command).action == NoAction
  {
  }

  /** The original text matters only to ASK, which changes nothing. */
  lemma {:induction false} DispatchActionIgnoresText(parts: seq<string>, c1: string, c2: string,
                                                      parseDouble: string -> Option<real>)
    ensures Dispatch(parts, c1, parseDouble).action == Dispatch(parts, c2, parseDouble).action
  {
    if |parts| > 0 && parts[0] == "ASK" {
      DispatchOnAsk(parts, c1, parseDouble);
      DispatchOnAsk(parts, c2, parseDouble);
      AskChangesNothing(c1);
      AskChangesNothing(c2);
    } else {
      DispatchBesidesAsk(parts, c1, c2, parseDouble);
    }
  }

  lemma {:induction false} DispatchOnAsk(parts: seq<string>, command: string, parseDouble: string -> Option<real>)
    requires |parts| > 0 && parts[0] == "ASK"
    ensures Dispatch(parts, command, parseDouble) == Ask(command)
  {
  }

  lemma {:induction false} DispatchBesidesAsk(parts: seq<string>, c1: string, c2: string,
                                               parseDouble: string -> Option<real>)
    requires |parts| == 0 || parts[0] != "ASK"
    ensures Dispatch(parts, c1, parseDouble) == Dispatch(parts, c2, parseDouble)
  {
    if |parts| > 0 {
      var w := parts[0];
      var o := if w == "SYS" then Sys(parts)
               else if w == "HDG" then Hdg(parts, parseDouble)
               else if w == "ALT" then Alt(parts, parseDouble)
               else if w == "SPD" then Spd(parts, parseDouble)
               else if w == "LLM" then Llm(parts)
               else Refuse("Unknown command '" + w + "'");
      assert Dispatch(parts, c1, parseDouble) == o;
      assert Dispatch(parts, c2, parseDouble) == o;
    }
  }

  /** What a command does never depends on the letter case it was typed in. */
  lemma {:induction false} ActionIgnoresCase(command: string, parseDouble: string -> Option<real>)
    ensures Interpret(Some(ToUpper(command)), parseDouble).action == Interpret(Some(command), parseDouble).action
  {
    IsBlankIgnoresCase(command);
    if !IsBlank(command) {
      TrimIgnoresCase(command);
      ToUpperIdempotent(Trim(command));
      assert ShellWords(ToUpper(command)) == ShellWords(command);
      DispatchActionIgnoresText(ShellWords(command), ToUpper(command), command, parseDouble);
    }
  }

  /** Normalising a heading typed in [0, 360) leaves it as typed. */
  lemma {:induction false} HeadingInRangeKept(command: string, parseDouble: string -> Option<real>)
    requires !IsBlank(command)
    requires |ShellWords(command)| >= 2 && ShellWords(command)[0] == "HDG"
    requires parseDouble(ShellWords(command)[1]).Some?
    requires 0.0 <= parseDouble(ShellWords(command)[1]).value < 360.0
    ensures Interpret(Some(command), parseDouble).action == SetHeading(parseDouble(ShellWords(command)[1]).value)
  {
    DispatchOnKeyword(ShellWords(command), command, parseDouble);
    NormalizeHeadingFixesRange(parseDouble(ShellWords(command)[1]).value);
  }

  /** -90 and 450 are stored as 270 and 90. */
  lemma {:induction false} HeadingExamples()
    ensures NormalizeHeading(-90.0) == 270.0
    ensures NormalizeHeading(450.0) == 90.0
  {
    assert Trunc(-90.0 / 360.0) == 0;
    assert Trunc(450.0 / 360.0) == 1;
  }

  /** "sys on" switches the system on. */
  lemma LowerCaseExample(parseDouble: string -> Option<real>)
    ensures Interpret(Some("sys on"), parseDouble) == Outcome(Say("System enabled"), SystemOn)
  {
    var c := "sys on";
    assert !IsJavaWhitespace(c[0]);
    assert Trim(c) == c;
    assert ToUpper(c) == "SYS" + Blanks(1) + "ON";
    SplitTwoWordsOnBlanks("SYS", 1, "ON");
  }

  /** Printable ASCII other than the blank. */
  predicate Printable(w: string) {
    forall i :: 0 <= i < |w| ==> ' ' < w[i] <= '~'
  }

  lemma {:induction false} UpperPrintable(w: string)
    requires Printable(w)
    ensures Printable(ToUpper(w))
    ensures forall i :: 0 <= i < |ToUpper(w)| ==> !IsRegexSpace(ToUpper(w)[i])
    ensures w != "" ==> !IsTrimmed(w[0]) && !IsTrimmed(w[|w| - 1])
  {
  }

  /**
   * Blanks before, between and after the two words of a command do not
   * matter: "  HDG   180  " reads as "HDG 180".
   */
  lemma {:induction false} ExtraBlanksIgnored(m: nat, word: string, n: nat, arg: string, k: nat)
    requires word != "" && arg != "" && Printable(word) && Printable(arg) && n >= 1
    ensures ShellWords(Blanks(m) + word + Blanks(n) + arg + Blanks(k)) == [ToUpper(word), ToUpper(arg)]
  {
    UpperPrintable(word);
    UpperPrintable(arg);
    var inner := word + Blanks(n) + arg;
    assert inner[0] == word[0] && inner[|inner| - 1] == arg[|arg| - 1];
    assert Blanks(m) + word + Blanks(n) + arg + Blanks(k) == Blanks(m) + inner + Blanks(k);
    TrimBlanks(m, inner, k);
    ToUpperConcat(word + Blanks(n), arg);
    ToUpperConcat(word, Blanks(n));
    assert ToUpper(Blanks(n)) == Blanks(n);
    SplitTwoWordsOnBlanks(ToUpper(word), n, ToUpper(arg));
  }

  /** The same holds with a single blank between the words and none around them. */
  lemma {:induction false} TwoWords(word: string, arg: string)
    requires word != "" && arg != "" && Printable(word) && Printable(arg)
    ensures ShellWords(word + " " + arg) == [ToUpper(word), ToUpper(arg)]
  {
    ExtraBlanksIgnored(0, word, 1, arg, 0);
    OneBlank();
    var none, one := Blanks(0), Blanks(1);
    assert none + word == word && word + one + arg + none == word + one + arg;
  }

  class Shell {
    const computer: Computer
    var llmEnabled: bool

    constructor (computer: Computer)
      ensures this.computer == computer && !llmEnabled
    {
      this.computer := computer;
      llmEnabled := false;
    }

    function View(): ShellView
      reads this, computer
    {
      ShellView(computer.goal, computer.navigator, llmEnabled)
    }

    /** Carries out one action on the computer or the LLM flag. */
    method Perform(a: Action)
      modifies this, computer
      ensures View() == After(a, old(View()))
      ensures computer.state == old(computer.state) && computer.written == old(computer.written)
    {
      match a
      case NoAction =>
      case SystemOn => computer.Activate();
      case SystemOff => computer.Deactivate();
      case SetHeading(h) => computer.SetHeading(h);
      case SetAltitude(x) => computer.SetAltitude(x);
      case SetSpeed(x) => computer.SetSpeed(x);
      case LlmOn => llmEnabled := true;
      case LlmOff => llmEnabled := false;
    }

    /** `execute`: the reply and the state change `Interpret` gives. */
    method Execute(command: Option<string>, parseDouble: string -> Option<real>) returns (reply: Reply)
      modifies this, computer
      ensures var o := Interpret(command, parseDouble);
              reply == o.reply && View() == After(o.action, old(View()))
      ensures computer.state == old(computer.state) && computer.written == old(computer.written)
    {
      if command.None? || IsBlank(command.value) {
        BlankIsEmpty(command, parseDouble);
        return Say("ERROR: Empty command");
      }
      var normalized := ToUpper(Trim(command.value));
      var parts := SplitOnWhitespace(normalized);
      var outcome;
      if |parts| == 0 {
        outcome := Refuse("Empty command");
      } else if parts[0] == "SYS" {
        outcome := Sys(parts);
      } else if parts[0] == "HDG" {
        outcome := Hdg(parts, parseDouble);
      } else if parts[0] == "ALT" {
        outcome := Alt(parts, parseDouble);
      } else if parts[0] == "SPD" {
        outcome := Spd(parts, parseDouble);
      } else if parts[0] == "LLM" {
        outcome := Llm(parts);
      } else if parts[0] == "ASK" {
        outcome := Ask(command.value);
      } else {
        outcome := Refuse("Unknown command '" + parts[0] + "'");
      }
      assert outcome == Dispatch(parts, command.value, parseDouble);
      Perform(outcome.action);
      reply := outcome.reply;
    }
  }
}
