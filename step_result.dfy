/**
 * What an environment hands back from `step()`, and the loosely typed
 * Python values that travel as environment states and Q-table keys.
 */
module StepResults {
  import opened Support

  /** The Python values that occur as states and state keys. */
  datatype Value =
    | Text(s: string)
    | Int(i: int)
    | Tuple(items: seq<Value>)
    | List(elems: seq<Value>)

  /** A grid cell `(row, col)` as the Python tuple the grid environment returns. */
  function CellValue(cell: (int, int)): (v: Value)
    ensures v.Tuple? && |v.items| == 2
    ensures v.items[0] == Int(cell.0) && v.items[1] == Int(cell.1)
  {
    Tuple([Int(cell.0), Int(cell.1)])
  }

  /** The `info` dictionary; the grid adds its position and a copy of its visit counts. */
  datatype Info = Info(step: int, position: Option<(int, int)>, visitCounts: Option<map<(int, int), int>>)

  /** `StepResult`. The source gives `reinforcement_magnitude` a default of 0.0; here every constructor call states it. */
  datatype StepResult = StepResult(
    state: Value,
    actionTaken: string,
    reinforced: bool,
    scheduleId: string,
    done: bool,
    magnitude: real,
    info: Info)
}
