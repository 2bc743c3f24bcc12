/**
 * The widgets of the terminal UI libraries (bubbles `table`, `textinput`, `list`, `help`, and
 * the huh form), reduced to plain records of the state the session logic sets or reads.
 * Their own key handling and rendering are foreign code: a `Library` value supplies them as
 * total functions.
 */
module Widgets {
  import opened Base
  import opened Messages

  // ---------------------------------------------------------------- bubbles table

  /** `table.Column`. */
  datatype TableColumn = TableColumn(title: string, width: int)

  /** `table.Model`: its columns and rows, focus, requested size and cursor. */
  datatype Table = Table(
    columns: seq<TableColumn>,
    rows: seq<seq<string>>,
    focused: bool,
    height: int,
    width: int,
    cursor: int)

  /** The zero `table.Model{}`. */
  function ZeroTable(): Table
  {
    Table([], [], false, 0, 0, 0)
  }

  /** The default viewport height of `table.New()` in the widget library. */
  const DefaultTableHeight: int := 20

  /** `table.New()` without options. */
  function NewTable(): Table
  {
    Table([], [], false, DefaultTableHeight, 0, 0)
  }

  /** `table.New(table.WithFocused(true), table.WithHeight(10))`, as `newTable` and `newModel` build it. */
  function StyledTable(): (t: Table)
    ensures t == NewTable().(focused := true, height := 10)
    ensures t.columns == [] && t.rows == [] && t.cursor == 0 && t.width == 0
  {
    Table([], [], true, 10, 0, 0)
  }

  // ---------------------------------------------------------------- bubbles textinput

  /** `textinput.Model`: the text typed so far, placeholder, focus and width. */
  datatype TextInput = TextInput(value: string, placeholder: string, focused: bool, width: int)

  /** `textinput.New()`. */
  function NewTextInput(): TextInput
  {
    TextInput("", "", false, 0)
  }

  // ---------------------------------------------------------------- bubbles list

  /** `tableItem`, the list item for one table name (declared alike in list.go and tablelist.go). */
  datatype TableItem = TableItem(name: string)
  {
    function FilterValue(): string { name }
    function Title(): string { name }
    function Description(): string { "" }
  }

  /** `list.Model`: its items, title, whether it draws its own help, size and cursor. */
  datatype ListWidget = ListWidget(
    items: seq<TableItem>,
    title: string,
    showHelp: bool,
    width: int,
    height: int,
    cursor: int)
  {
    /** `SelectedItem()`: the item under the cursor, if there is one. */
    function SelectedItem(): (r: Option<TableItem>)
      ensures r.Some? <==> 0 <= cursor < |items|
      ensures r.Some? ==> r.value in items
    {
      if 0 <= cursor < |items| then Some(items[cursor]) else None
    }
  }

  /** The title `list.New` gives a list in the widget library. */
  const DefaultListTitle: string := "List"

  /** `list.New(items, delegate, width, height)`. */
  function NewListWidget(items: seq<TableItem>, width: int, height: int): ListWidget
  {
    ListWidget(items, DefaultListTitle, true, width, height, 0)
  }

  /** One list item per table name, in order. */
  function ItemsOf(tables: seq<string>): (items: seq<TableItem>)
    ensures |items| == |tables|
    ensures forall i :: 0 <= i < |tables| ==> items[i].Title() == tables[i]
  {
    seq(|tables|, i requires 0 <= i < |tables| => TableItem(tables[i]))
  }

  /** The index loop of `setTables` (list.go:41-44, tablelist.go:33-36). */
  method BuildItems(tables: seq<string>) returns (items: seq<TableItem>)
    ensures items == ItemsOf(tables)
  {
    var a := new TableItem[|tables|];
    var i := 0;
    while i < |tables|
      invariant 0 <= i <= |tables|
      invariant forall j :: 0 <= j < i ==> a[j] == TableItem(tables[j])
    {
      a[i] := TableItem(tables[i]);
      i := i + 1;
    }
    items := a[..];
  }

  // ---------------------------------------------------------------- bubbles help

  /** `help.Model`, reduced to whether the full help is shown. */
  datatype Help = Help(showAll: bool)

  /** `help.New()`: short help. */
  function NewHelp(): Help
  {
    Help(false)
  }

  // ---------------------------------------------------------------- huh form

  /**
   * A huh field. An `Input` edits the string at index `valueIndex` of the row being edited
   * (`Value(&toEdit[i])`) and is checked by the validator for column type `validates`.
   */
  datatype Field =
    | Input(key: string, title: string, description: string, placeholder: string, valueIndex: nat, validates: string)
    | Confirm(title: string)

  datatype FormState = Normal | Completed | Aborted

  /** `huh.Form`: its fields (one group), state, and current validation errors. */
  datatype Form = Form(fields: seq<Field>, state: FormState, errors: seq<Error>)

  // ---------------------------------------------------------------- foreign behaviour

  /**
   * The widgets' own message handling and rendering, which belong to the widget library:
   * each `Update` returns the widget's new state and the command it issues, if any.
   */
  datatype Library = Library(
    tableUpdate: (Table, Msg) -> (Table, Option<nat>),
    inputUpdate: (TextInput, Msg) -> (TextInput, Option<nat>),
    listUpdate: (ListWidget, Msg) -> (ListWidget, Option<nat>),
    helpHeight: Help -> int,
    inputView: TextInput -> string,
    tableView: Table -> string)

  /** A widget's command as a batch: nil contributes nothing. */
  function AsRequests(c: Option<nat>): (r: seq<Request>)
    ensures |r| <= 1
    ensures forall q :: q in r ==> q.WidgetCmd?
  {
    match c
    case None => []
    case Some(t) => [WidgetCmd(t)]
  }
}
