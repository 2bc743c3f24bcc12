/**
 * The table view (`model` of internal/models/table.go, with the methods data.go, form.go and
 * info.go declare on it): a tab bar over the data, column-info and query panes, and the Edit
 * tab that selecting a row adds.
 *
 * Its fields are the union of those the four files use. The pure functions below give each
 * operation's effect on a snapshot of the fields (`ModelState`); the class `Model` performs
 * them in place and is specified by them.
 */
module TableModel {
  import opened Base
  import opened Text
  import opened Messages
  import opened Widgets
  import opened Shaping
  import opened Tabs
  import Keys
  import Editing
  import Query

  /** The fields of `model`, as a value. `selectedRow` and `toEdit` are references to a row's cells. */
  datatype ModelState = ModelState(
    tabs: seq<string>,
    activeTab: int,
    name: string,
    columns: seq<Column>,
    dataTable: Table,
    queryInput: TextInput,
    queryTable: Table,
    queryResult: seq<seq<string>>,
    currentPage: int,
    err: Option<Error>,
    width: int,
    height: int,
    selectedRow: array?<string>,
    toEdit: array?<string>,
    form: Option<Form>,
    confirmEdit: bool,
    infoTable: Table)

  /** The tab label `onRowSelect` appends. */
  const EditLabel: string := "Edit"

  /**
   * `newModel`: the three tabs with Data active, no table loaded, both tables the focused
   * 10-row table, and the query input empty and focused.
   */
  function NewModelState(): (s: ModelState)
    ensures s.tabs == ["Data", "Info", "Query"] && s.activeTab == DataTab
    ensures TabInRange(s.activeTab, |s.tabs|)
    ensures s.name == "" && s.columns == [] && s.queryResult == [] && s.currentPage == 0 && s.err == None
    ensures s.dataTable == s.queryTable == StyledTable()
    ensures s.queryInput.value == "" && s.queryInput.focused
    ensures s.selectedRow == null && s.toEdit == null && s.form == None
  {
    ModelState(DefaultTabs, DataTab, "", [], StyledTable(), Query.InitialInput(), StyledTable(), [], 0, None,
               0, 0, null, null, None, false, ZeroTable())
  }

  // ---------------------------------------------------------------- setters

  /** `setSize(w, h)`: stored; the data table is 2 narrower, the query input exactly as wide. */
  function Resized(s: ModelState, w: int, h: int): (r: ModelState)
    ensures r.width == w && r.height == h
    ensures r.dataTable == s.dataTable.(width := w - 2)
    ensures r.queryInput == s.queryInput.(width := w)
    ensures r.(width := s.width, height := s.height, dataTable := s.dataTable, queryInput := s.queryInput) == s
  {
    s.(width := w, height := h, dataTable := s.dataTable.(width := w - 2), queryInput := s.queryInput.(width := w))
  }

  /**
   * table.go's `setDataTable(msg)`: the loaded table becomes current at page 0, and the
   * existing data table shows its columns and rows.
   */
  function LoadData(s: ModelState, tableName: string, columns: seq<Column>, rows: seq<seq<string>>): (r: ModelState)
    ensures r.name == tableName && r.columns == columns && r.currentPage == 0
    ensures r.dataTable == DataTableWith(s.dataTable, columns, rows)
    ensures r.(name := s.name, columns := s.columns, currentPage := s.currentPage, dataTable := s.dataTable) == s
  {
    s.(name := tableName, currentPage := 0, columns := columns, dataTable := DataTableWith(s.dataTable, columns, rows))
  }

  /**
   * data.go's `setDataTable(tableName, columns, rows)`: as above, but back on the Data tab and
   * in a data table built afresh.
   */
  function LoadDataFresh(s: ModelState, tableName: string, columns: seq<Column>, rows: seq<seq<string>>): (r: ModelState)
    ensures r.name == tableName && r.columns == columns && r.currentPage == 0 && r.activeTab == DataTab
    ensures r.dataTable == FreshDataTable(columns, rows)
    ensures r.(name := s.name, columns := s.columns, currentPage := s.currentPage, activeTab := s.activeTab,
               dataTable := s.dataTable) == s
  {
    s.(name := tableName, currentPage := 0, columns := columns, activeTab := DataTab,
       dataTable := FreshDataTable(columns, rows))
  }

  /** `setQueryResult`: error and rows always stored; the query table replaced only on success with rows. */
  function WithQueryResult(s: ModelState, names: seq<string>, rows: seq<seq<string>>, err: Option<Error>): (r: ModelState)
    ensures r.err == err && r.queryResult == rows
    ensures r.queryTable == QueryTableWith(s.queryTable, names, rows, err)
    ensures r.(err := s.err, queryResult := s.queryResult, queryTable := s.queryTable) == s
  {
    s.(err := err, queryResult := rows, queryTable := QueryTableWith(s.queryTable, names, rows, err))
  }

  /** `setInfoTable`: the info table describes the current columns, one row each. */
  function WithInfoTable(s: ModelState): (r: ModelState)
    ensures r.infoTable == InfoTableOf(s.columns)
    ensures r.(infoTable := s.infoTable) == s
  {
    s.(infoTable := InfoTableOf(s.columns))
  }

  /**
   * `onRowSelect(row)`: both row references point at `row`, an "Edit" tab is appended and made
   * active, and the edit form is built over the row.
   */
  function RowSelected(s: ModelState, row: array<string>, editTab: int): (r: ModelState)
    requires row.Length >= |s.columns|
    reads row
    ensures r.selectedRow == row && r.toEdit == row
    ensures r.tabs == s.tabs + [EditLabel] && r.activeTab == editTab
    ensures r.form == Some(Editing.EditForm(s.columns, row[..]))
    ensures r.(selectedRow := s.selectedRow, toEdit := s.toEdit, tabs := s.tabs, activeTab := s.activeTab,
               form := s.form) == s
  {
    s.(selectedRow := row, tabs := s.tabs + [EditLabel], activeTab := editTab, toEdit := row,
       form := Some(Editing.EditForm(s.columns, row[..])))
  }

  /** `onEditSuccess(t)`: the three default tabs again, tab `t` active, and no row or form. */
  function EditSucceeded(s: ModelState, t: int): (r: ModelState)
    ensures r.tabs == ["Data", "Info", "Query"] && r.activeTab == t
    ensures r.selectedRow == null && r.toEdit == null && r.form == None
    ensures r.(tabs := s.tabs, activeTab := s.activeTab, selectedRow := s.selectedRow, toEdit := s.toEdit,
               form := s.form) == s
  {
    s.(tabs := DefaultTabs, activeTab := t, selectedRow := null, toEdit := null, form := None)
  }

  // ---------------------------------------------------------------- Update

  /**
   * The keys `Update` consumes itself, once the tab has moved: Edit on the Data or Info tab is
   * swallowed, ctrl+u on the Query tab clears the input. `None`: the key goes on.
   */
  function Intercept(s: ModelState, k: string): (r: Option<ModelState>)
    ensures r.Some? <==> ((s.activeTab == DataTab || s.activeTab == InfoTab) && Keys.Matches(k, Keys.Edit))
                         || (s.activeTab == QueryTab && k == "ctrl+u")
    ensures r.Some? && s.activeTab == QueryTab ==> r.value == s.(queryInput := s.queryInput.(value := ""))
    ensures r.Some? && s.activeTab != QueryTab ==> r.value == s
  {
    if (s.activeTab == DataTab || s.activeTab == InfoTab) && Keys.Matches(k, Keys.Edit) then Some(s)
    else if s.activeTab == QueryTab && k == "ctrl+u" then Some(s.(queryInput := s.queryInput.(value := "")))
    else None
  }

  /** The message passed on: to the data table on the Data and Info tabs, to the query input on the Query tab, else nowhere. */
  function Delegate(s: ModelState, msg: Msg, lib: Library): (r: (ModelState, seq<Request>))
    ensures s.activeTab == DataTab || s.activeTab == InfoTab ==>
              r == (s.(dataTable := lib.tableUpdate(s.dataTable, msg).0), AsRequests(lib.tableUpdate(s.dataTable, msg).1))
    ensures s.activeTab == QueryTab ==>
              r == (s.(queryInput := lib.inputUpdate(s.queryInput, msg).0), AsRequests(lib.inputUpdate(s.queryInput, msg).1))
    ensures !(DataTab <= s.activeTab <= QueryTab) ==> r == (s, [])
  {
    if s.activeTab == DataTab || s.activeTab == InfoTab then
      var (t, c) := lib.tableUpdate(s.dataTable, msg);
      (s.(dataTable := t), AsRequests(c))
    else if s.activeTab == QueryTab then
      var (ti, c) := lib.inputUpdate(s.queryInput, msg);
      (s.(queryInput := ti), AsRequests(c))
    else
      (s, [])
  }

  /**
   * `model.Update`: a key first moves the tab (Left before Right), then may be consumed by
   * `Intercept`; a loaded table or a query result is stored; whatever is not consumed is passed on.
   */
  function ModelStep(s: ModelState, msg: Msg, lib: Library): (r: (ModelState, seq<Request>))
    ensures msg.TableDataLoaded? ==>
              r.0.name == msg.tableName && r.0.columns == msg.columns && r.0.currentPage == 0
    ensures msg.QueryResult? ==> r.0.err == msg.err && r.0.queryResult == msg.rows
    ensures !msg.TableDataLoaded? ==> r.0.name == s.name && r.0.columns == s.columns && r.0.currentPage == s.currentPage
    ensures !msg.QueryResult? ==> r.0.err == s.err && r.0.queryResult == s.queryResult
    ensures r.1 != [] ==> DataTab <= r.0.activeTab <= QueryTab
  {
    match msg
    case Key(k) =>
      var moved := s.(activeTab := KeyTab(s.activeTab, k, |s.tabs|));
      (match Intercept(moved, k)
       case Some(kept) => (kept, [])
       case None => Delegate(moved, msg, lib))
    case TableDataLoaded(n, cs, rows) => Delegate(LoadData(s, n, cs, rows), msg, lib)
    case QueryResult(names, rows, err) => Delegate(WithQueryResult(s, names, rows, err), msg, lib)
    case _ => Delegate(s, msg, lib)
  }

  /** The model after a sequence of messages. */
  function ModelRun(s: ModelState, msgs: seq<Msg>, lib: Library): ModelState
    decreases |msgs|
  {
    if msgs == [] then s else ModelRun(ModelStep(s, msgs[0], lib).0, msgs[1..], lib)
  }

  /**
   * What Update leaves alone: the tab labels, the size, the edit row and form. The tab moves
   * only by key, as `KeyTab` says, and the only commands are the one the widget returned.
   */
  lemma ModelStepFrame(s: ModelState, msg: Msg, lib: Library)
    ensures ModelStep(s, msg, lib).0.tabs == s.tabs
    ensures ModelStep(s, msg, lib).0.width == s.width && ModelStep(s, msg, lib).0.height == s.height
    ensures ModelStep(s, msg, lib).0.selectedRow == s.selectedRow && ModelStep(s, msg, lib).0.toEdit == s.toEdit
    ensures ModelStep(s, msg, lib).0.form == s.form
    ensures ModelStep(s, msg, lib).0.activeTab == if msg.Key? then KeyTab(s.activeTab, msg.key, |s.tabs|) else s.activeTab
    ensures |ModelStep(s, msg, lib).1| <= 1 && forall q :: q in ModelStep(s, msg, lib).1 ==> q.WidgetCmd?
  {
  }

  /** Left goes to `max(activeTab-1, 0)` and Right to `min(activeTab+1, len(tabs)-1)`. */
  lemma ModelStepArrows(s: ModelState, lib: Library)
    ensures ModelStep(s, Key("left"), lib).0.activeTab == Max(s.activeTab - 1, DataTab)
    ensures ModelStep(s, Key("h"), lib).0.activeTab == Max(s.activeTab - 1, DataTab)
    ensures ModelStep(s, Key("right"), lib).0.activeTab == Min(s.activeTab + 1, |s.tabs| - 1)
    ensures ModelStep(s, Key("l"), lib).0.activeTab == Min(s.activeTab + 1, |s.tabs| - 1)
  {
    ModelStepFrame(s, Key("left"), lib);
    ModelStepFrame(s, Key("h"), lib);
    ModelStepFrame(s, Key("right"), lib);
    ModelStepFrame(s, Key("l"), lib);
  }

  /** Every Update keeps the active tab within the tab bar. */
  lemma ModelStepInRange(s: ModelState, msg: Msg, lib: Library)
    requires TabInRange(s.activeTab, |s.tabs|)
    ensures TabInRange(ModelStep(s, msg, lib).0.activeTab, |ModelStep(s, msg, lib).0.tabs|)
  {
    ModelStepFrame(s, msg, lib);
    if msg.Key? { KeyTabInRange(s.activeTab, msg.key, |s.tabs|); }
  }

  /** No sequence of messages takes the tab out of the tab bar, nor changes the labels. */
  lemma {:induction false} ModelRunInRange(s: ModelState, msgs: seq<Msg>, lib: Library)
    requires TabInRange(s.activeTab, |s.tabs|)
    ensures TabInRange(ModelRun(s, msgs, lib).activeTab, |ModelRun(s, msgs, lib).tabs|)
    ensures ModelRun(s, msgs, lib).tabs == s.tabs
    decreases |msgs|
  {
    if msgs != [] {
      ModelStepInRange(s, msgs[0], lib);
      ModelStepFrame(s, msgs[0], lib);
      ModelRunInRange(ModelStep(s, msgs[0], lib).0, msgs[1..], lib);
    }
  }

  /** From `newModel`, Update alone keeps the tab among Data, Info and Query. */
  lemma NewModelStaysInThreeTabs(msgs: seq<Msg>, lib: Library)
    ensures ModelRun(NewModelState(), msgs, lib).activeTab in {DataTab, InfoTab, QueryTab}
  {
    ModelRunInRange(NewModelState(), msgs, lib);
  }

  /** ctrl+u on the Query tab clears the input, returns no command, and is passed on to nothing. */
  lemma CtrlUClears(s: ModelState, lib: Library)
    requires s.activeTab == QueryTab
    ensures ModelStep(s, Key("ctrl+u"), lib) == (s.(queryInput := s.queryInput.(value := "")), [])
  {
    assert KeyTab(s.activeTab, "ctrl+u", |s.tabs|) == s.activeTab by { Keys.KeyAlphabet("ctrl+u"); }
  }

  /** The Edit key on the Data or Info tab is swallowed: no change, no command, not passed on. */
  lemma EditKeySwallowed(s: ModelState, lib: Library)
    requires s.activeTab == DataTab || s.activeTab == InfoTab
    ensures ModelStep(s, Key("e"), lib) == (s, [])
  {
    assert KeyTab(s.activeTab, "e", |s.tabs|) == s.activeTab by { Keys.KeyAlphabet("e"); }
  }

  /**
   * A loaded table becomes current at page 0 and fills the data table, which then sees the
   * message too while the Data or Info tab is active.
   */
  lemma TableDataLoadedStep(s: ModelState, n: string, cs: seq<Column>, rows: seq<seq<string>>, lib: Library)
    ensures ModelStep(s, TableDataLoaded(n, cs, rows), lib).0.name == n
    ensures ModelStep(s, TableDataLoaded(n, cs, rows), lib).0.columns == cs
    ensures ModelStep(s, TableDataLoaded(n, cs, rows), lib).0.currentPage == 0
    ensures s.activeTab == DataTab || s.activeTab == InfoTab ==>
              ModelStep(s, TableDataLoaded(n, cs, rows), lib).0.dataTable ==
              lib.tableUpdate(DataTableWith(s.dataTable, cs, rows), TableDataLoaded(n, cs, rows)).0
    ensures !(s.activeTab == DataTab || s.activeTab == InfoTab) ==>
              ModelStep(s, TableDataLoaded(n, cs, rows), lib).0.dataTable == DataTableWith(s.dataTable, cs, rows)
  {
  }

  /** A query result always replaces the error and the rows; the table only on success with rows. */
  lemma QueryResultStep(s: ModelState, names: seq<string>, rows: seq<seq<string>>, err: Option<Error>, lib: Library)
    ensures ModelStep(s, QueryResult(names, rows, err), lib).0.err == err
    ensures ModelStep(s, QueryResult(names, rows, err), lib).0.queryResult == rows
    ensures ModelStep(s, QueryResult(names, rows, err), lib).0.queryTable == QueryTableWith(s.queryTable, names, rows, err)
  {
  }

  // ---------------------------------------------------------------- the edit tab

  /**
   * `toEdit` is `selectedRow`, so a write through one is seen through the other, and every
   * input of the form edits a cell that exists.
   */
  predicate EditRowShared(s: ModelState)
  {
    s.selectedRow == s.toEdit &&
    (s.form.Some? <==> s.toEdit != null) &&
    (s.form.Some? ==> forall j :: 0 <= j < |s.form.value.fields| && s.form.value.fields[j].Input? ==>
                         s.form.value.fields[j].valueIndex < s.toEdit.Length)
  }

  /**
   * Selecting a row appends exactly one tab, leaves the earlier ones, and sets up the shared
   * edit row; with `editTab` naming the appended position the new tab is active and in range.
   */
  lemma RowSelectedShape(s: ModelState, row: array<string>, editTab: int)
    requires row.Length >= |s.columns|
    ensures |RowSelected(s, row, editTab).tabs| == |s.tabs| + 1
    ensures RowSelected(s, row, editTab).tabs[..|s.tabs|] == s.tabs
    ensures RowSelected(s, row, editTab).tabs[|s.tabs|] == "Edit"
    ensures EditRowShared(RowSelected(s, row, editTab))
    ensures editTab == |s.tabs| ==>
              TabInRange(RowSelected(s, row, editTab).activeTab, |RowSelected(s, row, editTab).tabs|)
  {
    var f := Editing.EditForm(s.columns, row[..]);
    forall j | 0 <= j < |f.fields| && f.fields[j].Input?
      ensures f.fields[j].valueIndex < row.Length
    {
      Editing.EditFormHasOneConfirm(s.columns, row[..], j);
      Editing.EditFormFields(s.columns, row[..], j);
    }
  }

  /** Selecting a row and then succeeding restores the default tab bar and drops the row and form. */
  lemma EditRoundTrip(s: ModelState, row: array<string>, editTab: int, t: int)
    requires row.Length >= |s.columns|
    ensures EditSucceeded(RowSelected(s, row, editTab), t) ==
            s.(tabs := DefaultTabs, activeTab := t, selectedRow := null, toEdit := null, form := None)
    ensures EditRowShared(EditSucceeded(RowSelected(s, row, editTab), t))
  {
  }

  /**
   * `formView` has a form to read only while a row is being edited: before any row is
   * selected and after `onEditSuccess` the form is nil and reading its state panics (`None`);
   * right after `onRowSelect` it shows the "Edit Entry" header above the form.
   */
  lemma FormViewOnlyWhileEditing(s: ModelState, row: array<string>, editTab: int, t: int, body: string)
    requires row.Length >= |s.columns|
    ensures Editing.FormView(NewModelState().form, body) == None
    ensures Editing.FormView(EditSucceeded(s, t).form, body) == None
    ensures Editing.FormView(RowSelected(s, row, editTab).form, body) == Some("Edit Entry\n" + body)
  {
  }

  // ---------------------------------------------------------------- views

  const NoTableSelected: string := "No table selected"

  /** The title line of the data and info panes, "Table: <name> (Page <n>)" with the 1-based page. */
  function PageTitle(name: string, currentPage: int): (t: string)
    ensures |t| > |"Table: " + name + " (Page "| + 1
    ensures t[..|"Table: " + name + " (Page "|] == "Table: " + name + " (Page "
    ensures t[|t| - 1] == ')'
  {
    "Table: " + name + " (Page " + Decimal(currentPage + 1) + ")"
  }

  /** `dataView` and `infoView`: the placeholder until a table is loaded, else the title above the given table. */
  function TablePane(s: ModelState, tableText: string): (v: string)
    ensures s.name == "" ==> v == NoTableSelected
    ensures s.name != "" ==> |v| >= |tableText| && v[|v| - |tableText|..] == tableText
    ensures s.name != "" ==> |v| >= |PageTitle(s.name, s.currentPage)| + 2 + |tableText| &&
                             v[..|PageTitle(s.name, s.currentPage)|] == PageTitle(s.name, s.currentPage)
  {
    if s.name == "" then NoTableSelected else PageTitle(s.name, s.currentPage) + "\n\n" + tableText
  }

  /** table.go's and data.go's `dataView`: the pane around the data table. */
  function DataView(s: ModelState, lib: Library): (v: string)
    ensures s.name == "" ==> v == NoTableSelected
    ensures s.name != "" ==> v == PageTitle(s.name, s.currentPage) + "\n\n" + lib.tableView(s.dataTable)
  {
    TablePane(s, lib.tableView(s.dataTable))
  }

  /** `infoView`: the same pane around the info table. */
  function InfoView(s: ModelState, lib: Library): (v: string)
    ensures s.name == "" ==> v == NoTableSelected
    ensures s.name != "" ==> v == PageTitle(s.name, s.currentPage) + "\n\n" + lib.tableView(s.infoTable)
    ensures v == DataView(s.(dataTable := s.infoTable), lib)
  {
    TablePane(s, lib.tableView(s.infoTable))
  }

  /** table.go's `queryView`: the query pane over this model's input, error, rows and query table. */
  function QueryView(s: ModelState, lib: Library): (v: string)
    ensures s.err.Some? ==> v == "SQL Query\n\n" + lib.inputView(s.queryInput) + "\n\n" + "Error: " + Message(s.err.value) + "\n"
    ensures s.err.None? && |s.queryResult| > 0 ==>
              v == "SQL Query\n\n" + lib.inputView(s.queryInput) + "\n\n" + lib.tableView(s.queryTable)
    ensures s.err.None? && s.queryResult == [] ==> v == "SQL Query\n\n" + lib.inputView(s.queryInput) + "\n\n"
  {
    Query.QueryPane(lib.inputView(s.queryInput), s.err, s.queryResult, lib.tableView(s.queryTable))
  }

  /** The pane `View` puts under the tab bar: the data view on the Data and Info tabs, the query view on the Query tab. */
  function SelectedView(s: ModelState, lib: Library): (v: string)
    ensures s.activeTab == DataTab || s.activeTab == InfoTab ==> v == DataView(s, lib)
    ensures s.activeTab == QueryTab ==> v == QueryView(s, lib)
    ensures !(DataTab <= s.activeTab <= QueryTab) ==> v == ""
  {
    if s.activeTab == DataTab || s.activeTab == InfoTab then DataView(s, lib)
    else if s.activeTab == QueryTab then QueryView(s, lib)
    else ""
  }

  /** The placeholder shows exactly when no table is loaded; no title can be mistaken for it. */
  lemma TablePaneGuard(s: ModelState, tableText: string)
    ensures TablePane(s, tableText) == NoTableSelected <==> s.name == ""
  {
    if s.name != "" {
      assert TablePane(s, tableText)[0] == 'T';
    }
  }

  /** The title names the table and its 1-based page, and the page reads back as a number. */
  lemma PageTitleReadsBack(name: string, currentPage: int)
    requires MinInt <= currentPage + 1 <= MaxInt
    ensures exists digits :: PageTitle(name, currentPage) == "Table: " + name + " (Page " + digits + ")" &&
                             Atoi(digits) == Some(currentPage + 1)
  {
    DecimalRoundTrip(currentPage + 1);
    var digits := Decimal(currentPage + 1);
    assert PageTitle(name, currentPage) == "Table: " + name + " (Page " + digits + ")";
  }

  /** The Info tab shows the data view, as the Data tab does; the info table is not what is shown. */
  lemma InfoTabShowsData(s: ModelState, lib: Library)
    requires s.activeTab == InfoTab
    ensures SelectedView(s, lib) == SelectedView(s.(activeTab := DataTab), lib) == DataView(s, lib)
  {
  }

  // ---------------------------------------------------------------- the model in place

  /** table.go's `model`, updated in place. */
  class Model {
    var tabs: seq<string>
    var activeTab: int
    var name: string
    var columns: seq<Column>
    var dataTable: Table
    var queryInput: TextInput
    var queryTable: Table
    var queryResult: seq<seq<string>>
    var currentPage: int
    var err: Option<Error>
    var width: int
    var height: int
    var selectedRow: array?<string>
    var toEdit: array?<string>
    var form: Option<Form>
    var confirmEdit: bool
    var infoTable: Table
    /** The index of the tab `onRowSelect` appends and activates. */
    const editTab: int

    function State(): ModelState
      reads this
    {
      ModelState(tabs, activeTab, name, columns, dataTable, queryInput, queryTable, queryResult, currentPage, err,
                 width, height, selectedRow, toEdit, form, confirmEdit, infoTable)
    }

    /** `newModel`. */
    constructor (editTab: int)
      ensures State() == NewModelState() && this.editTab == editTab
    {
      var t := StyledTable();
      var ti := NewTextInput();
      ti := ti.(placeholder := Query.QueryPlaceholder);
      ti := ti.(focused := true);
      ti := ti.(width := 50);
      tabs := DefaultTabs;
      activeTab := DataTab;
      name := "";
      columns := [];
      dataTable := t;
      queryInput := ti;
      queryTable := t;
      queryResult := [];
      currentPage := 0;
      err := None;
      width := 0;
      height := 0;
      selectedRow := null;
      toEdit := null;
      form := None;
      confirmEdit := false;
      infoTable := ZeroTable();
      this.editTab := editTab;
    }

    /** `Update`, on the receiver copy that it returns. */
    method Update(msg: Msg, lib: Library) returns (cmds: seq<Request>)
      modifies this
      ensures (State(), cmds) == ModelStep(old(State()), msg, lib)
    {
      if msg.Key? {
        if Keys.Matches(msg.key, Keys.Left) {
          activeTab := Max(activeTab - 1, DataTab);
        } else if Keys.Matches(msg.key, Keys.Right) {
          activeTab := Min(activeTab + 1, |tabs| - 1);
        }
        if activeTab == DataTab || activeTab == InfoTab {
          if Keys.Matches(msg.key, Keys.Edit) {
            return [];
          }
        } else if activeTab == QueryTab {
          if msg.key == "ctrl+u" {
            queryInput := queryInput.(value := "");
            return [];
          }
        }
      } else if msg.TableDataLoaded? {
        SetDataTable(msg.tableName, msg.columns, msg.rows);
      } else if msg.QueryResult? {
        SetQueryResult(msg.names, msg.rows, msg.err);
      }
      cmds := [];
      if activeTab == DataTab || activeTab == InfoTab {
        var (t, c) := lib.tableUpdate(dataTable, msg);
        dataTable := t;
        cmds := AsRequests(c);
      } else if activeTab == QueryTab {
        var (ti, c) := lib.inputUpdate(queryInput, msg);
        queryInput := ti;
        cmds := AsRequests(c);
      }
    }

    method SetSize(w: int, h: int)
      modifies this
      ensures State() == Resized(old(State()), w, h)
    {
      width := w;
      height := h;
      dataTable := dataTable.(width := w - 2);
      queryInput := queryInput.(width := w);
    }

    /** table.go's `setDataTable`. */
    method SetDataTable(tableName: string, cols: seq<Column>, rows: seq<seq<string>>)
      modifies this
      ensures State() == LoadData(old(State()), tableName, cols, rows)
    {
      name := tableName;
      currentPage := 0;
      columns := cols;
      dataTable := dataTable.(rows := []);
      var tableCols := BuildColumns(ColumnNames(cols), DataMinWidth);
      dataTable := dataTable.(columns := tableCols);
      var tableRows := CopyRows(rows);
      dataTable := dataTable.(rows := tableRows);
      dataTable := dataTable.(cursor := 0);
      dataTable := dataTable.(focused := true);
    }

    /** data.go's `setDataTable`. */
    method SetDataTableFresh(tableName: string, cols: seq<Column>, rows: seq<seq<string>>)
      modifies this
      ensures State() == LoadDataFresh(old(State()), tableName, cols, rows)
    {
      name := tableName;
      currentPage := 0;
      columns := cols;
      activeTab := DataTab;
      dataTable := StyledTable();
      var tableCols := BuildColumns(ColumnNames(cols), DataMinWidth);
      dataTable := dataTable.(columns := tableCols);
      var tableRows := CopyRows(rows);
      dataTable := dataTable.(rows := tableRows);
      dataTable := dataTable.(cursor := 0);
      dataTable := dataTable.(focused := true);
    }

    method SetQueryResult(names: seq<string>, rows: seq<seq<string>>, e: Option<Error>)
      modifies this
      ensures State() == WithQueryResult(old(State()), names, rows, e)
    {
      err := e;
      queryResult := rows;
      if e.None? && |rows| > 0 {
        var tableCols := BuildColumns(names, QueryMinWidth);
        var tableRows := CopyRows(rows);
        queryTable := queryTable.(columns := tableCols);
        queryTable := queryTable.(rows := tableRows);
      }
    }

    method SetInfoTable()
      modifies this
      ensures State() == WithInfoTable(old(State()))
    {
      infoTable := StyledTable();
      infoTable := infoTable.(columns := InfoColumns());
      var rows := BuildInfoRows(columns);
      infoTable := infoTable.(rows := rows);
      infoTable := infoTable.(cursor := 0);
      infoTable := infoTable.(focused := true);
    }

    /** `onRowSelect`: the form's inputs are built one per column by a loop, then the Save confirmation. */
    method OnRowSelect(row: array<string>)
      requires row.Length >= |columns|
      modifies this
      ensures State() == RowSelected(old(State()), row, editTab)
      ensures EditRowShared(State())
    {
      selectedRow := row;
      tabs := tabs + [EditLabel];
      activeTab := editTab;
      toEdit := row;
      var inputs: seq<Field> := [];
      var i := 0;
      while i < |columns|
        invariant 0 <= i <= |columns|
        invariant inputs == Editing.EditFields(columns, row[..])[..i]
      {
        var col := columns[i];
        inputs := inputs + [Input(col.name, col.name, col.colType, row[i], i, col.colType)];
        i := i + 1;
      }
      assert inputs == Editing.EditFields(columns, row[..]);
      form := Some(Form(inputs + [Confirm("Save")], Normal, []));
      RowSelectedShape(old(State()), row, editTab);
    }

    method OnEditSuccess(t: int)
      modifies this
      ensures State() == EditSucceeded(old(State()), t)
    {
      tabs := [];
      tabs := DefaultTabs;
      activeTab := t;
      selectedRow := null;
      toEdit := null;
      form := None;
    }

    /**
     * The form storing value `v` through input `j`'s pointer into `toEdit`: the cell changes
     * and the same change is seen in `selectedRow`.
     */
    method FormWrite(j: int, v: string)
      requires EditRowShared(State()) && form.Some? && 0 <= j < |form.value.fields| && form.value.fields[j].Input?
      modifies toEdit
      ensures toEdit[..] == old(toEdit[..])[form.value.fields[j].valueIndex := v]
      ensures selectedRow[form.value.fields[j].valueIndex] == v
    {
      toEdit[form.value.fields[j].valueIndex] := v;
    }

    /** `View`'s pane below the tab bar. */
    function View(lib: Library): (v: string)
      reads this
      ensures v == SelectedView(State(), lib)
      ensures activeTab == InfoTab ==> v == DataView(State(), lib)
    {
      SelectedView(State(), lib)
    }
  }
}
