/** The screen-state names (internal/models/state.go). */
module States {

  /** Go's `uint` on a 64-bit platform. */
  newtype Uint = x: int | 0 <= x < 0x1_0000_0000_0000_0000

  /** The `State` constants, numbered by `iota`. */
  const StateTableList: Uint := 0
  const StateTableView: Uint := 1

  /** `State.String()`: total, and each known state has its own name. */
  function StateName(s: Uint): (r: string)
    ensures r == "Table List" <==> s == StateTableList
    ensures r == "Table View" <==> s == StateTableView
    ensures r == "Unknown" <==> s != StateTableList && s != StateTableView
  {
    match s
    case 0 => "Table List"
    case 1 => "Table View"
    case _ => "Unknown"
  }
}
