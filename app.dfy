/**
 * The application root (internal/models/app.go): which pane has the focus, the help toggle,
 * the size split between the table list and the table view, and the routing of every message.
 */
module App {
  import opened Base
  import opened Messages
  import opened Widgets
  import Keys
  import List
  import TableModel

  /** The `focus` values, numbered by `iota`. */
  const ListView: int := 0
  const TableView: int := 1

  /**
   * The fields of `App`, as a value. The store is represented only by how many times it was
   * closed.
   */
  datatype AppState = AppState(
    focus: int,
    help: Help,
    err: Option<Error>,
    width: int,
    height: int,
    ready: bool,
    storeCloses: nat,
    list: List.ListState,
    table: TableModel.ModelState)

  /** `NewApp`: the full help shown, the list focused, not ready. */
  function NewAppState(): (a: AppState)
    ensures a.focus == ListView && a.help.showAll && !a.ready && a.err == None && a.storeCloses == 0
    ensures a.list == List.Initial() && a.table == TableModel.NewModelState()
  {
    AppState(ListView, Help(true), None, 0, 0, false, 0, List.Initial(), TableModel.NewModelState())
  }

  /** Go's `/` on `int`: the quotient truncated toward zero. */
  function GoDiv(a: int, b: int): (q: int)
    requires b > 0
    ensures a >= 0 ==> q * b <= a < q * b + b
    ensures a < 0 ==> q * b - b < a <= q * b
  {
    if a >= 0 then a / b else -((-a) / b)
  }

  /** `width * 30 / 100`: the table list's share of the window. */
  function ListWidth(w: int): int
  {
    GoDiv(w * 30, 100)
  }

  /** The list takes 30% of the width rounded toward zero, and the table view takes the rest. */
  lemma ListWidthSplit(w: int)
    ensures w >= 0 ==> 0 <= ListWidth(w) <= w && ListWidth(w) * 100 <= w * 30 < ListWidth(w) * 100 + 100
    ensures w < 0 ==> w <= ListWidth(w) <= 0 && ListWidth(w) * 100 - 100 < w * 30 <= ListWidth(w) * 100
    ensures ListWidth(-w) == -ListWidth(w)
    ensures ListWidth(99) == 29 && ListWidth(-99) == -29 && ListWidth(100) == 30
  {
  }

  /** The size step of `Update`: stored, marked ready, and split between the two panes. */
  function Resize(a: AppState, w: int, h: int, lib: Library): (r: AppState)
    ensures r.width == w && r.height == h && r.ready
    ensures r.list.width + r.table.width == w
    ensures r.list.height == r.table.height == h - lib.helpHeight(a.help) - 2
    ensures r.(width := a.width, height := a.height, ready := a.ready, list := a.list, table := a.table) == a
  {
    var contentHeight := h - lib.helpHeight(a.help) - 2;
    var listWidth := ListWidth(w);
    var contentWidth := w - listWidth;
    a.(width := w, height := h, ready := true,
       list := List.WithSize(a.list, listWidth, contentHeight),
       table := TableModel.Resized(a.table, contentWidth, contentHeight))
  }

  /**
   * The routing at the end of `Update`: the focused pane sees the message, its command joins
   * `cmds`, and the list's focus flag is set to whether it is the focused one.
   */
  function Dispatch(a: AppState, cmds: seq<Request>, msg: Msg, lib: Library): (r: (AppState, seq<Request>))
    ensures |cmds| <= |r.1| <= |cmds| + 1 && r.1[..|cmds|] == cmds
    ensures r.0.(list := a.list, table := a.table) == a
    ensures a.focus == ListView ==> r.0.list.focus && r.0.table == a.table
    ensures a.focus == TableView ==> r.0.list == List.WithFocus(a.list, false)
  {
    if a.focus == ListView then
      var (l, c) := List.Step(a.list, msg, lib);
      (a.(list := List.WithFocus(l, true)), cmds + c)
    else if a.focus == TableView then
      var (t, c) := TableModel.ModelStep(a.table, msg, lib);
      (a.(table := t, list := List.WithFocus(a.list, false)), cmds + c)
    else
      (a, cmds)
  }

  /** The three keys the App handles itself and stops at: Quit, Back and Help. */
  predicate AppKey(msg: Msg)
  {
    msg.Key? && (Keys.Matches(msg.key, Keys.Quit) || Keys.Matches(msg.key, Keys.Back) || Keys.Matches(msg.key, Keys.Help))
  }

  /**
   * What `Update` records before routing a message that is not one of `AppKey`: a size, the
   * table names, a selection with its load, an edit with its execution, an error.
   */
  function Received(a: AppState, msg: Msg, lib: Library): (r: (AppState, seq<Request>))
    ensures |r.1| <= 1 && forall q :: q in r.1 ==> q.LoadTableData? || q.ExecEdit?
    ensures r.0.focus == (if msg.TableSelected? then TableView else a.focus)
    ensures r.0.ready == (a.ready || msg.WindowSize?)
    ensures r.0.help == a.help && r.0.storeCloses == a.storeCloses
    ensures r.0.err == (if msg.ErrMsg? then msg.err else a.err)
  {
    match msg
    case WindowSize(w, h) => (Resize(a, w, h, lib), [])
    case TablesLoaded(ts) => (a.(list := List.WithTables(a.list, ts)), [])
    case TableSelected(n) => (a.(focus := TableView), [LoadTableData(n, 0)])
    case EditSubmit(e) => (a, [ExecEdit(e)])
    case ErrMsg(e) => (a.(err := e), [])
    case _ => (a, [])
  }

  /**
   * `App.Update`: Quit closes the store and quits, Back returns to the list, Help flips the
   * full help, and each stops there; every other message is recorded and then routed.
   */
  function AppStep(a: AppState, msg: Msg, lib: Library): (r: (AppState, seq<Request>))
    ensures msg.Key? && Keys.Matches(msg.key, Keys.Quit) ==> r == (a.(storeCloses := a.storeCloses + 1), [Quit])
    ensures !(msg.Key? && Keys.Matches(msg.key, Keys.Quit)) ==> r.0.storeCloses == a.storeCloses
    ensures a.ready ==> r.0.ready
    ensures AppKey(msg) ==> r.0.(focus := a.focus, list := a.list, help := a.help, storeCloses := a.storeCloses) == a
  {
    if msg.Key? && Keys.Matches(msg.key, Keys.Quit) then
      (a.(storeCloses := a.storeCloses + 1), [Quit])
    else if msg.Key? && Keys.Matches(msg.key, Keys.Back) then
      (if a.focus != ListView then a.(focus := ListView, list := List.WithFocus(a.list, true)) else a, [])
    else if msg.Key? && Keys.Matches(msg.key, Keys.Help) then
      (a.(help := a.help.(showAll := !a.help.showAll)), [])
    else
      var (b, cmds) := Received(a, msg, lib);
      Dispatch(b, cmds, msg, lib)
  }

  /** The App after a sequence of messages. */
  function AppRun(a: AppState, msgs: seq<Msg>, lib: Library): AppState
    decreases |msgs|
  {
    if msgs == [] then a else AppRun(AppStep(a, msgs[0], lib).0, msgs[1..], lib)
  }

  // ---------------------------------------------------------------- keys handled by the App

  /**
   * The Quit key closes the store and quits before any pane sees it, whatever has the focus:
   * "q" typed while the query input is active still quits.
   */
  lemma QuitPreempts(a: AppState, k: string, lib: Library)
    requires Keys.Matches(k, Keys.Quit)
    ensures AppStep(a, Key(k), lib) == (a.(storeCloses := a.storeCloses + 1), [Quit])
  {
  }

  /** Exactly "q" and "ctrl+c" quit. */
  lemma QuitKeys(a: AppState, k: string, lib: Library)
    ensures AppStep(a, Key(k), lib).1 == [Quit] <==> k == "q" || k == "ctrl+c"
  {
    Keys.KeyAlphabet(k);
    if AppStep(a, Key(k), lib).1 == [Quit] && !Keys.Matches(k, Keys.Quit) {
      if !Keys.Matches(k, Keys.Back) && !Keys.Matches(k, Keys.Help) {
        DispatchRequests(a, [], Key(k), lib, Quit);
      }
    }
  }

  /** Back returns the focus to the list and sets its focus flag, with no command and no routing; on the list it changes nothing. */
  lemma BackToList(a: AppState, k: string, lib: Library)
    requires Keys.Matches(k, Keys.Back)
    ensures AppStep(a, Key(k), lib).1 == []
    ensures a.focus != ListView ==> AppStep(a, Key(k), lib).0 == a.(focus := ListView, list := a.list.(focus := true))
    ensures a.focus == ListView ==> AppStep(a, Key(k), lib).0 == a
  {
    Keys.KeyAlphabet(k);
  }

  /** The Help key flips the full-help flag and nothing else; pressing it twice restores the App. */
  lemma HelpToggles(a: AppState, k: string, lib: Library)
    requires Keys.Matches(k, Keys.Help)
    ensures AppStep(a, Key(k), lib) == (a.(help := Help(!a.help.showAll)), [])
    ensures AppStep(AppStep(a, Key(k), lib).0, Key(k), lib).0 == a
  {
    Keys.KeyAlphabet(k);
  }

  // ---------------------------------------------------------------- messages handled by the App

  /** Whatever the focused pane adds to the commands is a widget's command or a table selection. */
  lemma DispatchRequests(a: AppState, cmds: seq<Request>, msg: Msg, lib: Library, q: Request)
    requires q in Dispatch(a, cmds, msg, lib).1
    ensures q in cmds || q.WidgetCmd? || q.SelectTable?
  {
    if a.focus == ListView {
      var (l, c) := List.Step(a.list, msg, lib);
      if q in c { List.StepRequests(a.list, msg, lib, q); }
    } else if a.focus == TableView {
      TableModel.ModelStepFrame(a.table, msg, lib);
    }
  }

  /**
   * A selected table moves the focus to the table view and queues exactly one load, of that
   * table at page 0, ahead of whatever the table view returns.
   */
  lemma TableSelectedLoads(a: AppState, n: string, lib: Library)
    ensures AppStep(a, TableSelected(n), lib).0.focus == TableView
    ensures !AppStep(a, TableSelected(n), lib).0.list.focus
    ensures |AppStep(a, TableSelected(n), lib).1| >= 1
    ensures AppStep(a, TableSelected(n), lib).1[0] == LoadTableData(n, 0)
    ensures forall i :: 1 <= i < |AppStep(a, TableSelected(n), lib).1| ==> AppStep(a, TableSelected(n), lib).1[i].WidgetCmd?
    ensures AppStep(a, TableSelected(n), lib).0.table == TableModel.ModelStep(a.table, TableSelected(n), lib).0
  {
    TableModel.ModelStepFrame(a.table, TableSelected(n), lib);
  }

  /** An edit submission queues its execution first. */
  lemma EditSubmitExecutes(a: AppState, e: nat, lib: Library)
    ensures |AppStep(a, EditSubmit(e), lib).1| >= 1 && AppStep(a, EditSubmit(e), lib).1[0] == ExecEdit(e)
    ensures AppStep(a, EditSubmit(e), lib).0.focus == a.focus
  {
  }

  /** An error message becomes the latest error. */
  lemma ErrStored(a: AppState, e: Option<Error>, lib: Library)
    ensures AppStep(a, ErrMsg(e), lib).0.err == e
    ensures AppStep(a, ErrMsg(e), lib).0.focus == a.focus
  {
  }

  /** Loaded table names reach the list, whichever pane has the focus. */
  lemma TablesLoadedStored(a: AppState, ts: seq<string>, lib: Library)
    ensures AppStep(a, TablesLoaded(ts), lib).0.list.tables == ts
    ensures AppStep(a, TablesLoaded(ts), lib).0.list.list.items == ItemsOf(ts) ||
            a.focus == ListView
  {
    var b := a.(list := List.WithTables(a.list, ts));
    if a.focus == ListView { List.StepKeepsFields(b.list, TablesLoaded(ts), lib); }
  }

  /**
   * A window size is stored and makes the App ready; the list gets 30% of the width (rounded
   * toward zero) and the table view the rest, both the height left under the help.
   */
  lemma ResizeSplit(a: AppState, w: int, h: int, lib: Library)
    ensures AppStep(a, WindowSize(w, h), lib).0.width == w && AppStep(a, WindowSize(w, h), lib).0.height == h
    ensures AppStep(a, WindowSize(w, h), lib).0.ready
    ensures AppStep(a, WindowSize(w, h), lib).0.list.width == ListWidth(w)
    ensures AppStep(a, WindowSize(w, h), lib).0.table.width == w - ListWidth(w)
    ensures AppStep(a, WindowSize(w, h), lib).0.list.width + AppStep(a, WindowSize(w, h), lib).0.table.width == w
    ensures AppStep(a, WindowSize(w, h), lib).0.list.height == h - lib.helpHeight(a.help) - 2
    ensures AppStep(a, WindowSize(w, h), lib).0.table.height == h - lib.helpHeight(a.help) - 2
  {
    var b := Resize(a, w, h, lib);
    List.StepKeepsFields(b.list, WindowSize(w, h), lib);
    TableModel.ModelStepFrame(b.table, WindowSize(w, h), lib);
  }

  // ---------------------------------------------------------------- invariants

  /** The list's focus flag says whether the focus is on the list, and the focus is one of the two panes. */
  predicate FocusLinked(a: AppState)
  {
    (a.focus == ListView || a.focus == TableView) && a.list.focus == (a.focus == ListView)
  }

  lemma NewAppFocusLinked()
    ensures FocusLinked(NewAppState())
  {
  }

  /** Every Update keeps the focus flag and the focus in step. */
  lemma StepFocusLinked(a: AppState, msg: Msg, lib: Library)
    requires FocusLinked(a)
    ensures FocusLinked(AppStep(a, msg, lib).0)
  {
  }

  lemma {:induction false} RunFocusLinked(a: AppState, msgs: seq<Msg>, lib: Library)
    requires FocusLinked(a)
    ensures FocusLinked(AppRun(a, msgs, lib))
    decreases |msgs|
  {
    if msgs != [] {
      StepFocusLinked(a, msgs[0], lib);
      RunFocusLinked(AppStep(a, msgs[0], lib).0, msgs[1..], lib);
    }
  }

  /** Only a window size makes the App ready, and nothing makes it unready. */
  lemma StepReady(a: AppState, msg: Msg, lib: Library)
    ensures AppStep(a, msg, lib).0.ready == (a.ready || msg.WindowSize?)
  {
  }

  lemma {:induction false} RunReady(a: AppState, msgs: seq<Msg>, lib: Library)
    ensures AppRun(a, msgs, lib).ready <==> a.ready || exists i :: 0 <= i < |msgs| && msgs[i].WindowSize?
    decreases |msgs|
  {
    if msgs != [] {
      StepReady(a, msgs[0], lib);
      RunReady(AppStep(a, msgs[0], lib).0, msgs[1..], lib);
      if exists i :: 0 <= i < |msgs| && msgs[i].WindowSize? {
        var i :| 0 <= i < |msgs| && msgs[i].WindowSize?;
        if i > 0 { assert msgs[1..][i - 1].WindowSize?; }
      }
      if exists j :: 0 <= j < |msgs[1..]| && msgs[1..][j].WindowSize? {
        var j :| 0 <= j < |msgs[1..]| && msgs[1..][j].WindowSize?;
        assert msgs[j + 1].WindowSize?;
      }
    }
  }

  // ---------------------------------------------------------------- view

  /** What `View` shows: the loading text, or the list (by border colour), the table pane and the help. */
  datatype Screen = Loading(text: string) | Layout(listBorder: string, tablePane: string, fullHelp: bool)

  /** `App.View`: nothing but "Loading..." until the App is ready. */
  function ScreenOf(a: AppState, lib: Library): (v: Screen)
    ensures v.Loading? <==> !a.ready
    ensures v.Loading? ==> v.text == "Loading..."
  {
    if !a.ready then Loading("Loading...")
    else Layout(List.BorderColour(a.list), TableModel.SelectedView(a.table, lib), a.help.showAll)
  }

  /** From `NewApp`, the screen shows "Loading..." exactly until a window size has arrived. */
  lemma LoadingUntilSized(msgs: seq<Msg>, lib: Library)
    ensures ScreenOf(AppRun(NewAppState(), msgs, lib), lib) == Loading("Loading...") <==>
            forall i :: 0 <= i < |msgs| ==> !msgs[i].WindowSize?
  {
    RunReady(NewAppState(), msgs, lib);
  }

  // ---------------------------------------------------------------- the App in place

  /** app.go's `App`, with its two panes as objects it owns. */
  class App {
    var focus: int
    var help: Help
    var err: Option<Error>
    var width: int
    var height: int
    var ready: bool
    var storeCloses: nat
    const tableListModel: List.TableList
    const tableModel: TableModel.Model

    function State(): AppState
      reads this, tableListModel, tableModel
    {
      AppState(focus, help, err, width, height, ready, storeCloses, tableListModel.State(), tableModel.State())
    }

    /** `NewApp`; `editTab` is the index the table view gives its Edit tab. */
    constructor (editTab: int)
      ensures State() == NewAppState() && tableModel.editTab == editTab
      ensures fresh(tableListModel) && fresh(tableModel)
    {
      var h := NewHelp();
      h := h.(showAll := true);
      focus := ListView;
      help := h;
      err := None;
      width := 0;
      height := 0;
      ready := false;
      storeCloses := 0;
      tableListModel := new List.TableList();
      tableModel := new TableModel.Model(editTab);
    }

    /** `Update`, on the App copy that it returns: the App's own handling, then the routing. */
    method Update(msg: Msg, lib: Library) returns (cmds: seq<Request>)
      modifies this, tableListModel, tableModel
      ensures (State(), cmds) == AppStep(old(State()), msg, lib)
    {
      var stop: bool;
      cmds, stop := Receive(msg, lib);
      if !stop {
        cmds := Route(msg, cmds, lib);
      }
    }

    /** The type switch of `Update`; `stop` for the keys that return at once. */
    method Receive(msg: Msg, lib: Library) returns (cmds: seq<Request>, stop: bool)
      modifies this, tableListModel, tableModel
      ensures stop == AppKey(msg)
      ensures stop ==> (State(), cmds) == AppStep(old(State()), msg, lib)
      ensures !stop ==> (State(), cmds) == Received(old(State()), msg, lib)
    {
      cmds, stop := [], false;
      match msg {
        case WindowSize(w, h) =>
          width := w;
          height := h;
          ready := true;
          var helpHeight := lib.helpHeight(help);
          var contentHeight := h - helpHeight - 2;
          var listWidth := ListWidth(w);
          var contentWidth := w - listWidth;
          tableListModel.SetSize(listWidth, contentHeight);
          tableModel.SetSize(contentWidth, contentHeight);
        case Key(k) =>
          if Keys.Matches(k, Keys.Quit) {
            storeCloses := storeCloses + 1;
            return [Quit], true;
          } else if Keys.Matches(k, Keys.Back) {
            if focus != ListView {
              focus := ListView;
              tableListModel.SetFocus(true);
            }
            return [], true;
          } else if Keys.Matches(k, Keys.Help) {
            help := help.(showAll := !help.showAll);
            return [], true;
          }
        case TablesLoaded(ts) =>
          tableListModel.SetTables(ts);
        case TableSelected(n) =>
          focus := TableView;
          cmds := [LoadTableData(n, 0)];
        case EditSubmit(e) =>
          cmds := [ExecEdit(e)];
        case ErrMsg(e) =>
          err := e;
        case _ =>
      }
    }

    /** The routing of `Update` to the focused pane. */
    method Route(msg: Msg, cmds0: seq<Request>, lib: Library) returns (cmds: seq<Request>)
      modifies tableListModel, tableModel
      ensures (State(), cmds) == Dispatch(old(State()), cmds0, msg, lib)
    {
      cmds := cmds0;
      if focus == ListView {
        var c := tableListModel.Update(msg, lib);
        tableListModel.SetFocus(true);
        cmds := cmds + c;
      } else if focus == TableView {
        var c := tableModel.Update(msg, lib);
        tableListModel.SetFocus(false);
        cmds := cmds + c;
      }
    }

    function View(lib: Library): (v: Screen)
      reads this, tableListModel, tableModel
      ensures v == ScreenOf(State(), lib)
      ensures v.Loading? <==> !ready
    {
      ScreenOf(State(), lib)
    }
  }
}
