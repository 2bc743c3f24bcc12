/**
 * The events the session state machine consumes and the requests it emits.
 *
 * Bubble Tea delivers every input and every asynchronous result as a message; `Msg` lists
 * the kinds the session logic tells apart. A `tea.Cmd` is a deferred unit of work; here it is
 * the `Request` value naming that work, and a batch of commands is a `seq<Request>`.
 */
module Messages {
  import opened Base

  /**
   * A column descriptor as the data layer reports it (`database.Column`): ordinal, name,
   * declared type, not-null flag, optional default literal (nil = no default clause), and the
   * primary-key flag.
   */
  datatype Column = Column(
    cid: int,
    name: string,
    colType: string,
    notNull: bool,
    defaultValue: Option<string>,
    pk: bool)

  /** The names of the given descriptors, in order. */
  function ColumnNames(cs: seq<Column>): (names: seq<string>)
    ensures |names| == |cs|
    ensures forall i :: 0 <= i < |cs| ==> names[i] == cs[i].name
  {
    seq(|cs|, i requires 0 <= i < |cs| => cs[i].name)
  }

  datatype Msg =
    | WindowSize(width: int, height: int)          // tea.WindowSizeMsg
    | Key(key: string)                              // tea.KeyMsg, by its String() form ("q", "ctrl+c", "esc", ...)
    | TablesLoaded(tables: seq<string>)             // tablesLoadedMsg
    | TableSelected(tableName: string)              // tableSelectedMsg
    | EditSubmit(edit: nat)                         // editSubmitMsg, carried through as an opaque value
    | ErrMsg(err: Option<Error>)                    // errMsg
    | TableDataLoaded(tableName: string, columns: seq<Column>, rows: seq<seq<string>>)  // tableDataLoadedMsg
    | QueryResult(names: seq<string>, rows: seq<seq<string>>, err: Option<Error>)      // queryResultMsg
    | Other(token: nat)                             // anything else: cursor blinks, widget-internal messages

  datatype Request =
    | Quit                                          // tea.Quit
    | LoadTableData(tableName: string, page: int)   // loadTableDataCmd
    | ExecEdit(edit: nat)                           // execEditCmd
    | SelectTable(tableName: string)                // selectTableCmd
    | SwitchTab(tab: int)                           // switchTabCmd
    | WidgetCmd(token: nat)                         // a command a bubbles widget returned from its own Update
}
