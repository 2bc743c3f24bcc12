/**
 * The other table-list pane, internal/models/tablelist.go: no focus flag; Enter records the
 * selected name in the model instead of asking for a table.
 */
module TableList {
  import opened Base
  import opened Messages
  import opened Widgets
  import Keys
  import List

  /** tablelist.go's `tableList`. */
  class TableList {
    var list: ListWidget
    var tables: seq<string>
    var selected: string
    var width: int
    var height: int

    /** `newTableList()`: an empty list and no selection. */
    constructor ()
      ensures list == NewListWidget([], 0, 0) && tables == [] && selected == ""
      ensures width == 0 && height == 0
    {
      list := NewListWidget([], 0, 0);
      tables := [];
      selected := "";
      width := 0;
      height := 0;
    }

    /** `setTables`: the names stored as given, one item per name in order, the list titled. */
    method SetTables(ts: seq<string>)
      modifies this
      ensures tables == ts
      ensures list == old(list).(items := ItemsOf(ts), title := List.ListTitle)
      ensures selected == old(selected) && width == old(width) && height == old(height)
    {
      tables := ts;
      var items := BuildItems(ts);
      list := list.(items := items);
      list := list.(title := List.ListTitle);
    }

    /** `setSize`: stored, and passed on to the list. */
    method SetSize(w: int, h: int)
      modifies this
      ensures width == w && height == h
      ensures list == old(list).(width := w, height := h)
      ensures tables == old(tables) && selected == old(selected)
    {
      width := w;
      height := h;
      list := list.(width := w, height := h);
    }

    /**
     * `selectedTable()`: the stored name. Its receiver is a copy, so the clearing assignment
     * is made on the copy only: this model is left as it was.
     */
    method SelectedTable() returns (name: string)
      ensures name == selected
    {
      var copy := selected;  // the receiver copy; clearing it afterwards would change nothing here
      name := copy;
    }

    /** Asking twice gives the same name: the selection is never consumed. */
    method SelectedTableTwice() returns (first: string, second: string)
      ensures first == second == selected
    {
      first := SelectedTable();
      second := SelectedTable();
    }

    /** `selectedTable` on a pointer receiver: the stored name, which is then cleared. */
    method TakeSelectedTable() returns (name: string)
      modifies this`selected
      ensures name == old(selected) && selected == ""
    {
      name := selected;
      selected := "";
    }

    /** Taken once, the selection is gone: a second take gives the empty name. */
    method TakeSelectedTableTwice() returns (first: string, second: string)
      modifies this`selected
      ensures first == old(selected) && second == ""
    {
      first := TakeSelectedTable();
      second := TakeSelectedTable();
    }

    /**
     * `Update`: Enter on a selected item stores its name and returns no command, without passing
     * the key to the list widget; any other message goes to the widget.
     */
    method Update(msg: Msg, lib: Library) returns (cmds: seq<Request>)
      modifies this
      ensures tables == old(tables) && width == old(width) && height == old(height)
      ensures List.EnterSelection(old(list), msg).Some? ==>
                selected == List.EnterSelection(old(list), msg).value && list == old(list) && cmds == []
      ensures List.EnterSelection(old(list), msg).None? ==>
                selected == old(selected) &&
                list == lib.listUpdate(old(list), msg).0 && cmds == AsRequests(lib.listUpdate(old(list), msg).1)
    {
      if msg.Key? && Keys.Matches(msg.key, Keys.Enter) {
        var item := list.SelectedItem();
        if item.Some? {
          selected := item.value.name;
          return [];
        }
      }
      var (l, c) := lib.listUpdate(list, msg);
      list := l;
      cmds := AsRequests(c);
    }
  }
}
