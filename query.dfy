/**
 * The ad-hoc SQL pane of internal/models/query.go: a text input for the statement and a table
 * for the rows it returned, or the error it failed with.
 */
module Query {
  import opened Base
  import opened Messages
  import opened Widgets
  import opened Shaping

  const QueryPlaceholder: string := "SELECT * FROM table_name"

  /**
   * The text of the query pane, given the rendered input and result table: a heading, the input,
   * then the error if there is one, else the table if there are rows, else nothing.
   */
  function QueryPane(inputText: string, err: Option<Error>, results: seq<seq<string>>, tableText: string): (v: string)
    ensures err.Some? ==> v == "SQL Query\n\n" + inputText + "\n\n" + "Error: " + Message(err.value) + "\n"
    ensures err.None? && |results| > 0 ==> v == "SQL Query\n\n" + inputText + "\n\n" + tableText
    ensures err.None? && results == [] ==> v == "SQL Query\n\n" + inputText + "\n\n"
  {
    var view := "SQL Query\n\n" + inputText + "\n\n";
    if err.Some? then view + "Error: " + Message(err.value) + "\n"
    else if |results| > 0 then view + tableText
    else view
  }

  /** The query input both panes start with: empty, focused, with the example statement as placeholder. */
  function InitialInput(): (t: TextInput)
    ensures t.value == "" && t.focused && t.placeholder == QueryPlaceholder && t.width == 50
  {
    NewTextInput().(placeholder := QueryPlaceholder, focused := true, width := 50)
  }

  /** query.go's `queryModel`. */
  class QueryModel {
    var input: TextInput
    var table: Table
    var results: seq<seq<string>>
    var err: Option<Error>
    var width: int
    var height: int

    /** `newQueryModel()`. */
    constructor ()
      ensures input == InitialInput() && table == NewTable()
      ensures results == [] && err == None && width == 0 && height == 0
    {
      var ti := NewTextInput();
      ti := ti.(placeholder := QueryPlaceholder);
      ti := ti.(focused := true);
      ti := ti.(width := 50);
      input := ti;
      table := NewTable();
      results := [];
      err := None;
      width := 0;
      height := 0;
    }

    /** `setSize`: stored; the input is 4 narrower than the pane. */
    method SetSize(w: int, h: int)
      modifies this
      ensures width == w && height == h
      ensures input == old(input).(width := w - 4)
      ensures table == old(table) && results == old(results) && err == old(err)
    {
      width := w;
      height := h;
      input := input.(width := w - 4);
    }

    /**
     * `setResults`: the error and the rows are always stored; the table is rebuilt, 15-wide
     * columns and `height - 5` tall, only for a successful result with rows.
     */
    method SetResults(names: seq<string>, rows: seq<seq<string>>, e: Option<Error>)
      modifies this
      ensures err == e && results == rows
      ensures table == ResultsTableWith(old(table), names, rows, e, height)
      ensures input == old(input) && width == old(width) && height == old(height)
    {
      err := e;
      results := rows;
      if e.None? && |rows| > 0 {
        var tableCols := BuildColumns(names, QueryMinWidth);
        var tableRows := CopyRows(rows);
        table := table.(columns := tableCols);
        table := table.(rows := tableRows);
        table := table.(height := height - 5);
      }
    }

    /** `Update`: ctrl+u clears the input and stops there; everything else goes to the input. */
    method Update(msg: Msg, lib: Library) returns (cmds: seq<Request>)
      modifies this
      ensures table == old(table) && results == old(results) && err == old(err)
      ensures width == old(width) && height == old(height)
      ensures msg == Key("ctrl+u") ==> input == old(input).(value := "") && cmds == []
      ensures msg != Key("ctrl+u") ==>
                input == lib.inputUpdate(old(input), msg).0 && cmds == AsRequests(lib.inputUpdate(old(input), msg).1)
    {
      if msg.Key? && msg.key == "ctrl+u" {
        input := input.(value := "");
        return [];
      }
      var (ti, c) := lib.inputUpdate(input, msg);
      input := ti;
      cmds := AsRequests(c);
    }

    /** `View`. */
    function View(lib: Library): (v: string)
      reads this
      ensures err.Some? ==> v == "SQL Query\n\n" + lib.inputView(input) + "\n\n" + "Error: " + Message(err.value) + "\n"
      ensures err.None? && |results| > 0 ==> v == "SQL Query\n\n" + lib.inputView(input) + "\n\n" + lib.tableView(table)
      ensures err.None? && results == [] ==> v == "SQL Query\n\n" + lib.inputView(input) + "\n\n"
    {
      QueryPane(lib.inputView(input), err, results, lib.tableView(table))
    }
  }

  /** The error hides the rows; rows show only without an error. */
  lemma ViewPrecedence(inputText: string, err: Option<Error>, results: seq<seq<string>>, tableText: string)
    ensures err.Some? ==>
              QueryPane(inputText, err, results, tableText) == QueryPane(inputText, err, [], "")
    ensures err.None? && results == [] ==>
              QueryPane(inputText, err, results, tableText) == QueryPane(inputText, err, results, "")
  {
  }
}
