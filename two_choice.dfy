/**
 * The two-choice concurrent operant chamber: two response options, each
 * with a schedule of its own, and a step counter that ends the session.
 */
module TwoChoice {
  import opened Support
  import opened Schedules
  import opened StepResults

  const Actions: seq<string> := ["choice_a", "choice_b"]

  /** The schedule id a response reports: the option answered, or `""` for anything else. */
  function ScheduleIdFor(action: string): (id: string)
    ensures action == "choice_a" <==> id == "schedule_a"
    ensures action == "choice_b" <==> id == "schedule_b"
    ensures action !in Actions <==> id == ""
  {
    if action == "choice_a" then "schedule_a"
    else if action == "choice_b" then "schedule_b"
    else ""
  }

  /**
   * Whether a step reinforces, given both schedules' states before the step:
   * both are ticked, then only the schedule of the option answered can fire.
   */
  function Reinforces(a: State, b: State, action: string): (fired: bool)
    ensures fired ==> action in Actions
    ensures action == "choice_a" ==> fired == Fires(Ticked(a), true)
    ensures action == "choice_b" ==> fired == Fires(Ticked(b), true)
  {
    if action == "choice_a" then Fires(Ticked(a), true)
    else if action == "choice_b" then Fires(Ticked(b), true)
    else false
  }

  class TwoChoiceEnvironment {
    const scheduleA: Schedule
    const scheduleB: Schedule
    const maxSteps: int
    var stepCount: int

    /** The two schedules are two objects, as the environment's factory builds them. */
    ghost predicate Valid()
    {
      scheduleA.Obj() != scheduleB.Obj()
    }

    ghost function Repr(): set<object>
    {
      {this, scheduleA.Obj(), scheduleB.Obj()}
    }

    constructor (scheduleA: Schedule, scheduleB: Schedule, maxSteps: int)
      requires scheduleA.Obj() != scheduleB.Obj()
      ensures Valid()
      ensures this.scheduleA == scheduleA && this.scheduleB == scheduleB
      ensures this.maxSteps == maxSteps && stepCount == 0
    {
      this.scheduleA := scheduleA;
      this.scheduleB := scheduleB;
      this.maxSteps := maxSteps;
      stepCount := 0;
    }

    /** `reset()`: both schedules restart (each with its own draw) and the counter goes back to 0. */
    method Reset(drawA: real, drawB: real) returns (state: Value)
      requires Valid()
      modifies Repr()
      ensures stepCount == 0 && state == Text("start")
      ensures scheduleA.State() == Initial(scheduleA.Kind(), old(scheduleA.State()).value, drawA)
      ensures scheduleB.State() == Initial(scheduleB.Kind(), old(scheduleB.State()).value, drawB)
    {
      scheduleA.Reset(drawA);
      scheduleB.Reset(drawB);
      stepCount := 0;
      state := Text("start");
    }

    /** The part of `step(action)` after the ticks: only the option answered is checked as a target. */
    method Respond(action: string, draw: real) returns (reinforced: bool, scheduleId: string)
      requires Valid()
      modifies scheduleA.Obj(), scheduleB.Obj()
      ensures scheduleA.State() == AfterCheck(old(scheduleA.State()), action == "choice_a", draw)
      ensures scheduleB.State() == AfterCheck(old(scheduleB.State()), action == "choice_b", draw)
      ensures reinforced == if action == "choice_a" then Fires(old(scheduleA.State()), true)
                            else if action == "choice_b" then Fires(old(scheduleB.State()), true)
                            else false
      ensures scheduleId == ScheduleIdFor(action)
    {
      reinforced := false;
      scheduleId := "";
      if action == "choice_a" {
        reinforced := scheduleA.Check(true, draw);
        var _ := scheduleB.Check(false, draw);
        scheduleId := "schedule_a";
      } else if action == "choice_b" {
        reinforced := scheduleB.Check(true, draw);
        var _ := scheduleA.Check(false, draw);
        scheduleId := "schedule_b";
      }
    }

    /**
     * `step(action)`: count the step, tick both schedules, then check the
     * answered schedule with a target response and the other one with a
     * non-target response. `draw` serves a VR or VI redraw.
     */
    method Step(action: string, draw: real) returns (r: StepResult)
      requires Valid()
      modifies Repr()
      ensures stepCount == old(stepCount) + 1
      ensures scheduleA.State() == AfterCheck(Ticked(old(scheduleA.State())), action == "choice_a", draw)
      ensures scheduleB.State() == AfterCheck(Ticked(old(scheduleB.State())), action == "choice_b", draw)
      ensures r.reinforced == Reinforces(old(scheduleA.State()), old(scheduleB.State()), action)
      ensures r.state == Text("start") && r.actionTaken == action
      ensures r.scheduleId == ScheduleIdFor(action)
      ensures r.done <==> stepCount >= maxSteps
      ensures r.magnitude == if r.reinforced then 1.0 else 0.0
      ensures r.info == Info(stepCount, None, None)
    {
      stepCount := stepCount + 1;
      scheduleA.Tick();
      scheduleB.Tick();
      var reinforced, scheduleId := Respond(action, draw);
      var done := stepCount >= maxSteps;
      r := StepResult(Text("start"), action, reinforced, scheduleId, done,
                      if reinforced then 1.0 else 0.0, Info(stepCount, None, None));
    }

    function AvailableActions(): (actions: seq<string>)
      ensures actions == Actions
    {
      ["choice_a", "choice_b"]
    }
  }

  /** An action outside the two options leaves both schedules as the tick left them and is never reinforced. */
  lemma OtherActionsCheckNothing(a: State, b: State, action: string, draw: real)
    requires action !in Actions
    ensures AfterCheck(Ticked(a), action == "choice_a", draw) == Ticked(a)
    ensures AfterCheck(Ticked(b), action == "choice_b", draw) == Ticked(b)
    ensures !Reinforces(a, b, action)
  {
  }
}
