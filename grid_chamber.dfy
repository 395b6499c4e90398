/**
 * The grid operant chamber: a `rows` by `cols` grid with one lever. The
 * animal moves, stays, or presses the lever; a press counts only within
 * one cell of the lever (diagonals and the lever's own cell included).
 */
module GridChamber {
  import opened Support
  import opened Schedules
  import opened StepResults

  const Actions: seq<string> := ["up", "down", "left", "right", "stay", "press_lever"]

  /** `DIRECTIONS`: the move of each direction action, `None` for anything else. */
  function Direction(action: string): (d: Option<(int, int)>)
    ensures d.Some? <==> action in {"up", "down", "left", "right", "stay"}
    ensures d.Some? ==> -1 <= d.value.0 <= 1 && -1 <= d.value.1 <= 1
    ensures d == Some((0, 0)) <==> action == "stay"
  {
    if action == "up" then Some((-1, 0))
    else if action == "down" then Some((1, 0))
    else if action == "left" then Some((0, -1))
    else if action == "right" then Some((0, 1))
    else if action == "stay" then Some((0, 0))
    else None
  }

  /** `max(0, min(n - 1, x))`. */
  function Clamp(x: int, n: int): (y: int)
    ensures n >= 1 ==> 0 <= y < n
    ensures 0 <= x < n ==> y == x
  {
    Max(0, Min(n - 1, x))
  }

  /** Chebyshev distance at most one. */
  predicate Adjacent(pos: (int, int), lever: (int, int))
  {
    Abs(pos.0 - lever.0) <= 1 && Abs(pos.1 - lever.1) <= 1
  }

  predicate InBounds(pos: (int, int), rows: int, cols: int)
  {
    0 <= pos.0 < rows && 0 <= pos.1 < cols
  }

  /** The position after a move: each coordinate moved and clamped to the grid. */
  function Moved(pos: (int, int), d: (int, int), rows: int, cols: int): (p: (int, int))
    ensures rows >= 1 && cols >= 1 ==> InBounds(p, rows, cols)
    ensures InBounds(pos, rows, cols) && d == (0, 0) ==> p == pos
  {
    (Clamp(pos.0 + d.0, rows), Clamp(pos.1 + d.1, cols))
  }

  /** A move changes each coordinate by at most one. */
  lemma MoveIsLocal(pos: (int, int), d: (int, int), rows: int, cols: int)
    requires InBounds(pos, rows, cols)
    requires -1 <= d.0 <= 1 && -1 <= d.1 <= 1
    ensures Adjacent(Moved(pos, d, rows, cols), pos)
  {
  }

  /** Recording one more visit keeps the counts consistent with one more step. */
  lemma VisitRecorded(m: map<(int, int), int>, p: (int, int), n: int)
    requires SumValues(m) == n + 1
    requires forall c :: c in m ==> m[c] >= 1
    ensures SumValues(Increment(m, p)) == n + 2
    ensures forall c :: c in Increment(m, p) ==> Increment(m, p)[c] >= 1
    ensures p in Increment(m, p)
  {
    SumValuesIncrement(m, p);
  }

  class GridChamberEnvironment {
    const rows: int
    const cols: int
    const leverPos: (int, int)
    const schedule: Option<Schedule>
    const maxSteps: int
    const startPos: (int, int)
    var pos: (int, int)
    var stepCount: int
    var visitCounts: map<(int, int), int>

    ghost function Repr(): set<object>
    {
      {this} + (if schedule.Some? then {schedule.value.Obj()} else {})
    }

    /** Every visit is recorded once: the counts sum to the steps taken plus the start. */
    ghost predicate VisitsConsistent()
      reads this
    {
      SumValues(visitCounts) == stepCount + 1
      && (forall c :: c in visitCounts ==> visitCounts[c] >= 1)
      && pos in visitCounts
    }

    constructor (rows: int, cols: int, leverPos: (int, int), schedule: Option<Schedule>, maxSteps: int, startPos: (int, int))
      ensures this.rows == rows && this.cols == cols && this.leverPos == leverPos
      ensures this.schedule == schedule && this.maxSteps == maxSteps && this.startPos == startPos
      ensures pos == startPos && stepCount == 0 && visitCounts == map[]
    {
      this.rows := rows;
      this.cols := cols;
      this.leverPos := leverPos;
      this.schedule := schedule;
      this.maxSteps := maxSteps;
      this.startPos := startPos;
      pos := startPos;
      stepCount := 0;
      visitCounts := map[];
    }

    /** `_record_visit(pos)`. */
    method RecordVisit(p: (int, int))
      modifies this
      ensures visitCounts == Increment(old(visitCounts), p)
      ensures SumValues(visitCounts) == SumValues(old(visitCounts)) + 1
      ensures pos == old(pos) && stepCount == old(stepCount)
    {
      SumValuesIncrement(visitCounts, p);
      visitCounts := visitCounts[p := Get(visitCounts, p) + 1];
    }

    /** `_is_adjacent_to_lever()`. */
    function IsAdjacentToLever(): (b: bool)
      reads this
      ensures b <==> Abs(pos.0 - leverPos.0) <= 1 && Abs(pos.1 - leverPos.1) <= 1
    {
      var (r, c) := pos;
      var (lr, lc) := leverPos;
      Abs(r - lr) <= 1 && Abs(c - lc) <= 1
    }

    /** `reset()`: back to the start cell, no steps, one visit recorded there. */
    method Reset(draw: real) returns (state: Value)
      modifies Repr()
      ensures pos == startPos && stepCount == 0
      ensures visitCounts == map[startPos := 1]
      ensures VisitsConsistent()
      ensures schedule.Some? ==> schedule.value.State() == Initial(schedule.value.Kind(), old(schedule.value.State()).value, draw)
      ensures state == CellValue(startPos)
    {
      pos := startPos;
      stepCount := 0;
      visitCounts := map[];
      if schedule.Some? {
        schedule.value.Reset(draw);
      }
      SumValuesSingleton(startPos, 1);
      RecordVisit(pos);
      state := CellValue(pos);
    }

    /** The part of `step(action)` between the tick and the visit: press, move, or nothing. */
    method Respond(action: string, draw: real) returns (actualAction: string, reinforced: bool, scheduleId: string)
      modifies Repr()
      ensures stepCount == old(stepCount) && visitCounts == old(visitCounts)
      ensures Direction(action).Some? ==> pos == Moved(old(pos), Direction(action).value, rows, cols)
      ensures Direction(action).None? ==> pos == old(pos)
      ensures schedule.Some? ==>
        var target := action == "press_lever" && Adjacent(old(pos), leverPos);
        && reinforced == Fires(old(schedule.value.State()), target)
        && schedule.value.State() == AfterCheck(old(schedule.value.State()), target, draw)
      ensures schedule.None? ==> !reinforced
      ensures actualAction == if action == "press_lever" && !Adjacent(old(pos), leverPos) then "stay" else action
      ensures scheduleId == if action == "press_lever" && Adjacent(old(pos), leverPos) then "lever_schedule" else ""
    {
      actualAction := action;
      reinforced := false;
      scheduleId := "";
      var move := Direction(action);
      if action == "press_lever" {
        if IsAdjacentToLever() {
          if schedule.Some? {
            reinforced := schedule.value.Check(true, draw);
          }
          scheduleId := "lever_schedule";
        } else {
          actualAction := "stay";
        }
      } else if move.Some? {
        var (dr, dc) := move.value;
        var newR := Max(0, Min(rows - 1, pos.0 + dr));
        var newC := Max(0, Min(cols - 1, pos.1 + dc));
        pos := (newR, newC);
        if schedule.Some? {
          var _ := schedule.value.Check(false, draw);
        }
      }
    }

    /**
     * `step(action)`. A press next to the lever is a target response; a
     * press elsewhere is recorded as `"stay"` and checks nothing; a move
     * (including `"stay"`) is a non-target response; any other action does
     * nothing. Every step ticks the schedule first and records the visit last.
     */
    method Step(action: string, draw: real) returns (r: StepResult)
      modifies Repr()
      ensures stepCount == old(stepCount) + 1
      ensures Direction(action).Some? ==> pos == Moved(old(pos), Direction(action).value, rows, cols)
      ensures Direction(action).None? ==> pos == old(pos)
      ensures visitCounts == Increment(old(visitCounts), pos)
      ensures old(VisitsConsistent()) ==> VisitsConsistent()
      ensures old(InBounds(pos, rows, cols)) ==> InBounds(pos, rows, cols)
      ensures schedule.Some? ==>
        var target := action == "press_lever" && Adjacent(old(pos), leverPos);
        var s := Ticked(old(schedule.value.State()));
        && r.reinforced == Fires(s, target)
        && schedule.value.State() == AfterCheck(s, target, draw)
      ensures schedule.None? ==> !r.reinforced
      ensures r.actionTaken == if action == "press_lever" && !Adjacent(old(pos), leverPos) then "stay" else action
      ensures r.scheduleId == if action == "press_lever" && Adjacent(old(pos), leverPos) then "lever_schedule" else ""
      ensures r.state == CellValue(pos) && r.magnitude == 0.0
      ensures r.done <==> stepCount >= maxSteps
      ensures r.info == Info(stepCount, Some(pos), Some(visitCounts))
    {
      ghost var oldVisits := visitCounts;
      ghost var consistent := VisitsConsistent();
      stepCount := stepCount + 1;
      if schedule.Some? {
        schedule.value.Tick();
      }
      var actualAction, reinforced, scheduleId := Respond(action, draw);
      RecordVisit(pos);
      if consistent {
        VisitRecorded(oldVisits, pos, stepCount - 1);
      }
      var done := stepCount >= maxSteps;
      r := StepResult(CellValue(pos), actualAction, reinforced, scheduleId, done, 0.0,
                      Info(stepCount, Some(pos), Some(visitCounts)));
    }

    function AvailableActions(): (actions: seq<string>)
      ensures actions == Actions
    {
      ["up", "down", "left", "right", "stay", "press_lever"]
    }
  }
}
