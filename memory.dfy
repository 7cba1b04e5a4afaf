/**
 * The blackboard (`domain/Memory.java`): five single-value slots and three
 * registries keyed by the upper-cased name of a task or controller, so that
 * "pitch" and "PITCH" name the same entry.  The registries are maps the
 * methods replace; the runnables are opaque handles.
 */
module Blackboard {
  import opened Wrappers
  import opened Text
  import opened Domain

  /** A loop's on/off flag and rate, as the blackboard reads and writes it. */
  datatype Loop = Loop(active: bool, frequency: real)

  /** An opaque reference to a registered task. */
  datatype Runnable = Runnable(id: nat)

  /** The rate `setActive` gives a loop it has never seen. */
  const DefaultFrequency := 10.0

  /** Registry keys are upper-cased names. */
  function Key(name: string): (k: string)
    ensures k == ToUpper(k)
  {
    ToUpperIdempotent(name);
    ToUpper(name)
  }

  /** `isActive`: false for an unknown name. */
  predicate ActiveIn(loops: map<string, Loop>, name: string) {
    Key(name) in loops && loops[Key(name)].active
  }

  /** `getFrequency`: 0 for an unknown name. */
  function FrequencyIn(loops: map<string, Loop>, name: string): real {
    if Key(name) in loops then loops[Key(name)].frequency else 0.0
  }

  /** The registry after `setActive(name, active)`. */
  function WithActive(loops: map<string, Loop>, name: string, active: bool): map<string, Loop> {
    var k := Key(name);
    loops[k := Loop(active, if k in loops then loops[k].frequency else DefaultFrequency)]
  }

  /** The registry after `setFrequency(name, frequency)`. */
  function WithFrequency(loops: map<string, Loop>, name: string, frequency: real): map<string, Loop> {
    var k := Key(name);
    loops[k := Loop(k in loops && loops[k].active, frequency)]
  }

  /**
   * `setActive` sets the flag and keeps the rate (10 for a new name);
   * `setFrequency` sets the rate and keeps the flag (off for a new name);
   * neither touches any other name, and names differing only in case are
   * one entry.
   */
  lemma {:induction false} ReadModifyWrite(loops: map<string, Loop>, name: string, other: string,
                                           active: bool, frequency: real)
    requires Key(other) != Key(name)
    ensures ActiveIn(WithActive(loops, name, active), name) == active
    ensures FrequencyIn(WithActive(loops, name, active), name)
            == (if Key(name) in loops then FrequencyIn(loops, name) else DefaultFrequency)
    ensures FrequencyIn(WithFrequency(loops, name, frequency), name) == frequency
    ensures ActiveIn(WithFrequency(loops, name, frequency), name) == ActiveIn(loops, name)
    ensures ActiveIn(WithActive(loops, name, active), other) == ActiveIn(loops, other)
    ensures FrequencyIn(WithActive(loops, name, active), other) == FrequencyIn(loops, other)
    ensures ActiveIn(WithFrequency(loops, name, frequency), other) == ActiveIn(loops, other)
    ensures FrequencyIn(WithFrequency(loops, name, frequency), other) == FrequencyIn(loops, other)
    ensures ActiveIn(WithActive(loops, ToUpper(name), active), name) == active
  {
    ToUpperIdempotent(name);
  }

  /** Setting the flag and the rate of one name gives the same entry in either order. */
  lemma {:induction false} ActiveAndFrequencyCommute(loops: map<string, Loop>, name: string,
                                                     active: bool, frequency: real)
    ensures WithFrequency(WithActive(loops, name, active), name, frequency)
            == WithActive(WithFrequency(loops, name, frequency), name, active)
            == loops[Key(name) := Loop(active, frequency)]
  {
  }

  class Memory {
    var goal: Goal
    var state: State
    var target: Target
    var navigator: Navigator
    var assistant: Assistant
    var runnables: map<string, Runnable>
    var loops: map<string, Loop>
    var configurations: map<string, Configuration>

    /** Every registry key is an upper-cased name. */
    predicate Valid()
      reads this
    {
      (forall k :: k in runnables ==> k == ToUpper(k))
      && (forall k :: k in loops ==> k == ToUpper(k))
      && (forall k :: k in configurations ==> k == ToUpper(k))
    }

    constructor ()
      ensures Valid()
      ensures goal == DefaultGoal && state == NeutralState && target == DefaultTarget
      ensures navigator == InactiveNavigator && assistant == InactiveAssistant
      ensures runnables == map[] && loops == map[] && configurations == map[]
    {
      goal := DefaultGoal;
      state := NeutralState;
      target := DefaultTarget;
      navigator := InactiveNavigator;
      assistant := InactiveAssistant;
      runnables := map[];
      loops := map[];
      configurations := map[];
    }

    /** Registers a non-control task; its configuration entry, if any, stays. */
    method AddTask(name: string, runnable: Runnable, loop: Loop)
      requires Valid()
      modifies this
      ensures Valid()
      ensures runnables == old(runnables)[Key(name) := runnable]
      ensures loops == old(loops)[Key(name) := loop]
      ensures configurations == old(configurations)
      ensures goal == old(goal) && state == old(state) && target == old(target)
      ensures navigator == old(navigator) && assistant == old(assistant)
    {
      var key := Key(name);
      runnables := runnables[key := runnable];
      loops := loops[key := loop];
    }

    /** Registers a control unit together with its configuration. */
    method AddController(name: string, runnable: Runnable, loop: Loop, configuration: Configuration)
      requires Valid()
      modifies this
      ensures Valid()
      ensures runnables == old(runnables)[Key(name) := runnable]
      ensures loops == old(loops)[Key(name) := loop]
      ensures configurations == old(configurations)[Key(name) := configuration]
      ensures goal == old(goal) && state == old(state) && target == old(target)
      ensures navigator == old(navigator) && assistant == old(assistant)
    {
      var key := Key(name);
      runnables := runnables[key := runnable];
      loops := loops[key := loop];
      configurations := configurations[key := configuration];
    }

    method GetRunnable(name: string) returns (r: Option<Runnable>)
      ensures r.Some? <==> Key(name) in runnables
      ensures r.Some? ==> r.value == runnables[Key(name)]
    {
      var key := Key(name);
      r := if key in runnables then Some(runnables[key]) else None;
    }

    method GetConfiguration(name: string) returns (r: Option<Configuration>)
      ensures r.Some? <==> Key(name) in configurations
      ensures r.Some? ==> r.value == configurations[Key(name)]
    {
      var key := Key(name);
      r := if key in configurations then Some(configurations[key]) else None;
    }

    method SetConfiguration(name: string, configuration: Configuration)
      requires Valid()
      modifies this
      ensures Valid()
      ensures configurations == old(configurations)[Key(name) := configuration]
      ensures runnables == old(runnables) && loops == old(loops)
      ensures goal == old(goal) && state == old(state) && target == old(target)
      ensures navigator == old(navigator) && assistant == old(assistant)
    {
      configurations := configurations[Key(name) := configuration];
    }

    method GetLoop(name: string) returns (r: Option<Loop>)
      ensures r.Some? <==> Key(name) in loops
      ensures r.Some? ==> r.value == loops[Key(name)]
    {
      var key := Key(name);
      r := if key in loops then Some(loops[key]) else None;
    }

    method SetLoop(name: string, loop: Loop)
      requires Valid()
      modifies this
      ensures Valid()
      ensures loops == old(loops)[Key(name) := loop]
      ensures runnables == old(runnables) && configurations == old(configurations)
      ensures goal == old(goal) && state == old(state) && target == old(target)
      ensures navigator == old(navigator) && assistant == old(assistant)
    {
      loops := loops[Key(name) := loop];
    }

    method IsActive(name: string) returns (b: bool)
      ensures b == ActiveIn(loops, name)
    {
      var key := Key(name);
      b := key in loops && loops[key].active;
    }

    method SetActive(name: string, active: bool)
      requires Valid()
      modifies this
      ensures Valid()
      ensures loops == WithActive(old(loops), name, active)
      ensures runnables == old(runnables) && configurations == old(configurations)
      ensures goal == old(goal) && state == old(state) && target == old(target)
      ensures navigator == old(navigator) && assistant == old(assistant)
    {
      var key := Key(name);
      var freq := if key in loops then loops[key].frequency else DefaultFrequency;
      loops := loops[key := Loop(active, freq)];
    }

    method GetFrequency(name: string) returns (f: real)
      ensures f == FrequencyIn(loops, name)
    {
      var key := Key(name);
      f := if key in loops then loops[key].frequency else 0.0;
    }

    method SetFrequency(name: string, frequency: real)
      requires Valid()
      modifies this
      ensures Valid()
      ensures loops == WithFrequency(old(loops), name, frequency)
      ensures runnables == old(runnables) && configurations == old(configurations)
      ensures goal == old(goal) && state == old(state) && target == old(target)
      ensures navigator == old(navigator) && assistant == old(assistant)
    {
      var key := Key(name);
      var active := key in loops && loops[key].active;
      loops := loops[key := Loop(active, frequency)];
    }

    method SetGoal(value: Goal)
      modifies this
      ensures goal == value
      ensures state == old(state) && target == old(target)
      ensures navigator == old(navigator) && assistant == old(assistant)
      ensures runnables == old(runnables) && loops == old(loops) && configurations == old(configurations)
    {
      goal := value;
    }

    method SetState(value: State)
      modifies this
      ensures state == value
      ensures goal == old(goal) && target == old(target)
      ensures navigator == old(navigator) && assistant == old(assistant)
      ensures runnables == old(runnables) && loops == old(loops) && configurations == old(configurations)
    {
      state := value;
    }

    method SetTarget(value: Target)
      modifies this
      ensures target == value
      ensures goal == old(goal) && state == old(state)
      ensures navigator == old(navigator) && assistant == old(assistant)
      ensures runnables == old(runnables) && loops == old(loops) && configurations == old(configurations)
    {
      target := value;
    }

    method SetNavigator(value: Navigator)
      modifies this
      ensures navigator == value
      ensures goal == old(goal) && state == old(state) && target == old(target)
      ensures assistant == old(assistant)
      ensures runnables == old(runnables) && loops == old(loops) && configurations == old(configurations)
    {
      navigator := value;
    }

    method SetAssistant(value: Assistant)
      modifies this
      ensures assistant == value
      ensures goal == old(goal) && state == old(state) && target == old(target)
      ensures navigator == old(navigator)
      ensures runnables == old(runnables) && loops == old(loops) && configurations == old(configurations)
    {
      assistant := value;
    }
  }
}
