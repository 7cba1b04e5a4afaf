/**
 * The rule-based fallback of the cognitive orchestrator
 * (`strategy/CognitiveOrchestrator.java`), used when no language model is
 * online: keyword tests on the upper-cased request, in a fixed priority,
 * each calling at most one flight tool.  The tools are recorded as the call
 * made, not run.
 */
module FallbackParser {
  import opened Wrappers
  import opened Text

  /** The flight tool a request calls. */
  datatype ToolCall =
    | DisableAll
    | MaintainCurrentFlight
    | SetHeadingTo(heading: nat)
    | SetAltitudeTo(altitude: nat)
    | SetAirspeedTo(speed: nat)

  datatype Response = Response(reply: string, call: Option<ToolCall>)

  const EmergencyStop := "EMERGENCY STOP: " + "All flight controls disabled. Returning to manual control."
  const Maintaining := "Maintaining " + "current flight state (Syncing targets...)."

  /** The reply to a request nothing matched, quoting it in its original case. */
  function Unknown(command: string): string {
    "Unknown command: '" + command + "'. Try 'Set Altitude 5000' or 'STOP'."
  }

  predicate StopWord(input: string) {
    Contains(input, "STOP") || Contains(input, "OFF") || Contains(input, "MANUAL")
  }

  predicate HoldWord(input: string) {
    Contains(input, "MAINTAIN") || Contains(input, "KEEP") || input == "ON"
  }

  predicate HeadingWord(input: string) {
    Contains(input, "HEAD") || Contains(input, "HEADING")
  }

  predicate AltitudeWord(input: string) {
    Contains(input, "ALT") || Contains(input, "ALTITUDE")
  }

  predicate SpeedWord(input: string) {
    Contains(input, "SPEED") || Contains(input, "AIRSPEED")
  }

  /** `Integer.parseInt(input.replaceAll("[^0-9]", ""))`: every digit of the request, in order. */
  function Number(input: string): Option<nat> {
    ParseDigits(KeepDigits(input))
  }

  /** `processFallback`. */
  function Fallback(command: string): Response {
    var input := ToUpper(command);
    if StopWord(input) then Response(EmergencyStop, Some(DisableAll))
    else if HoldWord(input) then Response(Maintaining, Some(MaintainCurrentFlight))
    else if HeadingWord(input) then
      match Number(input)
      case Some(n) => Response("Set heading to " + NatToString(n), Some(SetHeadingTo(n)))
      case None => Response(Unknown(command), None)
    else if AltitudeWord(input) then
      match Number(input)
      case Some(n) => Response("Set altitude to " + NatToString(n), Some(SetAltitudeTo(n)))
      case None => Response(Unknown(command), None)
    else if SpeedWord(input) then
      match Number(input)
      case Some(n) => Response("Set airspeed to " + NatToString(n), Some(SetAirspeedTo(n)))
      case None => Response(Unknown(command), None)
    else Response(Unknown(command), None)
  }

  /**
   * `issueCommand`: the model's answer when it is online and answers
   * (`agentAnswer`, `None` for an exception), the fallback otherwise.
   */
  function IssueCommand(online: bool, agentPresent: bool, agentAnswer: Option<string>, command: string): (r: Response)
    ensures !(online && agentPresent) ==> r == Fallback(command)
    ensures online && agentPresent && agentAnswer.None? ==> r == Fallback(command)
  {
    if online && agentPresent && agentAnswer.Some? then Response(agentAnswer.value, None)
    else Fallback(command)
  }

  /** A stop word wins over everything else in the request, whatever else it says. */
  lemma {:induction false} StopWins(command: string)
    requires StopWord(ToUpper(command))
    ensures Fallback(command) == Response(EmergencyStop, Some(DisableAll))
  {
  }

  /** Only the stop branch disables the controls. */
  lemma {:induction false} DisableOnlyOnStop(command: string)
    ensures Fallback(command).call == Some(DisableAll) <==> StopWord(ToUpper(command))
  {
  }

  /**
   * A numeric branch hands its tool the number made of all digits of the
   * request, and its reply ends with that number written out, which reads
   * back as the same value.
   */
  lemma {:induction false} NumberIsEchoed(command: string)
    ensures var r := Fallback(command);
            var input := ToUpper(command);
            match r.call
            case Some(SetHeadingTo(n)) =>
              Number(input) == Some(n) && r.reply == "Set heading to " + NatToString(n)
              && DigitsValue(NatToString(n)) == n && n <= IntMax
            case Some(SetAltitudeTo(n)) =>
              Number(input) == Some(n) && r.reply == "Set altitude to " + NatToString(n)
              && DigitsValue(NatToString(n)) == n && n <= IntMax
            case Some(SetAirspeedTo(n)) =>
              Number(input) == Some(n) && r.reply == "Set airspeed to " + NatToString(n)
              && DigitsValue(NatToString(n)) == n && n <= IntMax
            case _ => true
  {
    var r := Fallback(command);
    match r.call
    case Some(SetHeadingTo(n)) => NatToStringRoundTrip(n);
    case Some(SetAltitudeTo(n)) => NatToStringRoundTrip(n);
    case Some(SetAirspeedTo(n)) => NatToStringRoundTrip(n);
    case _ =>
  }

  /** A request with a numeric keyword but no usable number calls no tool and is answered as unknown. */
  lemma {:induction false} NoNumberNoCall(command: string)
    requires var input := ToUpper(command);
             !StopWord(input) && !HoldWord(input)
             && (HeadingWord(input) || AltitudeWord(input) || SpeedWord(input))
             && Number(input).None?
    ensures Fallback(command) == Response(Unknown(command), None)
  {
  }

  /** No tool is called exactly when the reply is the unknown-command text. */
  lemma {:induction false} UnknownIffNoCall(command: string)
    ensures Fallback(command).call.None? <==> Fallback(command).reply == Unknown(command)
  {
    var r := Fallback(command);
    if r.call.Some? {
      // every reply that comes with a tool call starts with 'E', 'M' or 'S', the unknown reply with 'U'
      assert Unknown(command)[0] == 'U';
      assert EmergencyStop[0] == 'E' && Maintaining[0] == 'M';
      match r.call.value
      case DisableAll =>
      case MaintainCurrentFlight =>
      case SetHeadingTo(n) => assert r.reply[0] == 'S';
      case SetAltitudeTo(n) => assert r.reply[0] == 'S';
      case SetAirspeedTo(n) => assert r.reply[0] == 'S';
    }
  }

  /** The longer keyword of each pair adds nothing: it contains the shorter one. */
  lemma {:induction false} LongKeywordsRedundant(input: string)
    ensures Contains(input, "HEADING") ==> Contains(input, "HEAD")
    ensures Contains(input, "ALTITUDE") ==> Contains(input, "ALT")
    ensures Contains(input, "AIRSPEED") ==> Contains(input, "SPEED")
  {
    if Contains(input, "HEADING") {
      assert "HEADING" == "HEAD" + "ING";
      ContainsPrefix(input, "HEAD", "ING");
    }
    if Contains(input, "ALTITUDE") {
      assert "ALTITUDE" == "ALT" + "ITUDE";
      ContainsPrefix(input, "ALT", "ITUDE");
    }
    if Contains(input, "AIRSPEED") {
      var i := IndexOf(input, "AIRSPEED").value;
      assert input[i + 3..i + 8] == "SPEED";
      IndexFromFinds(input, "SPEED", 0, i + 3);
    }
  }
}
