/**
 * The table-list pane of internal/models/list.go: the list of table names, with a focus flag
 * that decides its border colour; Enter asks for the selected table.
 */
module List {
  import opened Base
  import opened Messages
  import opened Widgets
  import Keys

  /** The fields of list.go's `tableList`, as a value. */
  datatype ListState = ListState(focus: bool, list: ListWidget, tables: seq<string>, width: int, height: int)

  const ListTitle: string := "Database Tables"

  /** `newTableList()`: focused, no items, the list's own help hidden. */
  function Initial(): (s: ListState)
    ensures s.focus && s.list.items == [] && s.tables == []
  {
    ListState(true, NewListWidget([], 0, 0).(showHelp := false), [], 0, 0)
  }

  /** `setFocus(f)`: the focus flag becomes `f`; nothing else changes. */
  function WithFocus(s: ListState, f: bool): (r: ListState)
    ensures r.focus == f
    ensures r.list == s.list && r.tables == s.tables && r.width == s.width && r.height == s.height
  {
    s.(focus := f)
  }

  /** `setTables(tables)`: the names stored as given, one list item per name in order, and the list titled. */
  function WithTables(s: ListState, tables: seq<string>): (r: ListState)
    ensures r.tables == tables
    ensures |r.list.items| == |tables| && forall i :: 0 <= i < |tables| ==> r.list.items[i].name == tables[i]
    ensures r.list.title == ListTitle
    ensures r.focus == s.focus && r.width == s.width && r.height == s.height
    ensures r.list.(items := s.list.items, title := s.list.title) == s.list
  {
    s.(tables := tables, list := s.list.(items := ItemsOf(tables), title := ListTitle))
  }

  /** `setSize(width, height)`: stored, and passed on to the list. */
  function WithSize(s: ListState, width: int, height: int): (r: ListState)
    ensures r.width == width && r.height == height
    ensures r.list == s.list.(width := width, height := height)
    ensures r.focus == s.focus && r.tables == s.tables
  {
    s.(width := width, height := height, list := s.list.(width := width, height := height))
  }

  /** The table name Enter selects: only for the Enter key, and only while an item is selected. */
  function EnterSelection(list: ListWidget, msg: Msg): (r: Option<string>)
    ensures r.Some? <==> msg.Key? && Keys.Matches(msg.key, Keys.Enter) && list.SelectedItem().Some?
    ensures r.Some? ==> r.value == list.SelectedItem().value.name
  {
    if msg.Key? && Keys.Matches(msg.key, Keys.Enter) && list.SelectedItem().Some? then
      Some(list.SelectedItem().value.name)
    else None
  }

  /**
   * `tableList.Update`: Enter on a selected item asks for that table and is not passed on to
   * the list widget; every other message is.
   */
  function Step(s: ListState, msg: Msg, lib: Library): (r: (ListState, seq<Request>))
    ensures EnterSelection(s.list, msg).Some? ==> r == (s, [SelectTable(EnterSelection(s.list, msg).value)])
    ensures EnterSelection(s.list, msg).None? ==>
              r.0 == s.(list := lib.listUpdate(s.list, msg).0) && r.1 == AsRequests(lib.listUpdate(s.list, msg).1)
  {
    match EnterSelection(s.list, msg)
    case Some(name) => (s, [SelectTable(name)])
    case None =>
      var (l, c) := lib.listUpdate(s.list, msg);
      (s.(list := l), AsRequests(c))
  }

  /** Update never touches the focus flag, the stored names or the size. */
  lemma StepKeepsFields(s: ListState, msg: Msg, lib: Library)
    ensures Step(s, msg, lib).0.focus == s.focus
    ensures Step(s, msg, lib).0.tables == s.tables
    ensures Step(s, msg, lib).0.width == s.width && Step(s, msg, lib).0.height == s.height
  {
  }

  /** The only request Update makes itself is a table selection for the item under the cursor. */
  lemma StepRequests(s: ListState, msg: Msg, lib: Library, q: Request)
    requires q in Step(s, msg, lib).1
    ensures q.WidgetCmd? || (q.SelectTable? && TableItem(q.tableName) in s.list.items)
  {
  }

  /** `View`'s border colour: "62" when focused, "240" otherwise. */
  function BorderColour(s: ListState): (c: string)
    ensures s.focus <==> c == "62"
    ensures !s.focus <==> c == "240"
  {
    if s.focus then "62" else "240"
  }

  /** list.go's `tableList`. */
  class TableList {
    var focus: bool
    var list: ListWidget
    var tables: seq<string>
    var width: int
    var height: int

    function State(): ListState
      reads this
    {
      ListState(focus, list, tables, width, height)
    }

    /** `newTableList()`. */
    constructor ()
      ensures State() == Initial()
    {
      var l := NewListWidget([], 0, 0);
      l := l.(showHelp := false);
      focus := true;
      list := l;
      tables := [];
      width := 0;
      height := 0;
    }

    method SetFocus(f: bool)
      modifies this
      ensures State() == WithFocus(old(State()), f)
    {
      focus := f;
    }

    method SetTables(ts: seq<string>)
      modifies this
      ensures State() == WithTables(old(State()), ts)
    {
      tables := ts;
      var items := BuildItems(ts);
      list := list.(items := items);
      list := list.(title := ListTitle);
    }

    method SetSize(w: int, h: int)
      modifies this
      ensures State() == WithSize(old(State()), w, h)
    {
      width := w;
      height := h;
      list := list.(width := w, height := h);
    }

    /** The value-receiver Update; the returned copy replaces this one, so it is done in place. */
    method Update(msg: Msg, lib: Library) returns (cmds: seq<Request>)
      modifies this
      ensures (State(), cmds) == Step(old(State()), msg, lib)
    {
      if msg.Key? && Keys.Matches(msg.key, Keys.Enter) {
        var item := list.SelectedItem();
        if item.Some? {
          return [SelectTable(item.value.name)];
        }
      }
      var (l, c) := lib.listUpdate(list, msg);
      list := l;
      cmds := AsRequests(c);
    }
  }
}
