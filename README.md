# dbtui session logic in Dafny

dbtui is a terminal browser for SQLite databases, built on Bubble Tea. Its window has a list
of table names on the left and a table view on the right. The table view has tabs: Data,
Info, Query, and an Edit tab that appears while a row is being edited. This project models
what happens in a session:
- how the App routes key presses and asynchronous results between the two panes;
- the clamped tab index;
- how column descriptors and query rows become display tables;
- the edit form and its per-column validator;
- the prompt that asks whether to overwrite a database before seeding it.

The widget libraries (bubbles `table`, `textinput`, `list`, `help`; huh forms) are reduced to
records of the state dbtui sets or reads (`Widgets`). Their own key handling and rendering
come from a `Library` value: total functions passed to every `Update`. A command (`tea.Cmd`)
is a `Request` value naming the work it would do. A batch of commands is a sequence of them,
and nil commands are dropped.

Each Go struct that is updated in place is a Dafny class with the struct's fields:
- list.go's `tableList`: `List.TableList`;
- the table view `model`: `TableModel.Model`;
- `App`: `App.App`;
- query.go's `queryModel`: `Query.QueryModel`;
- tablelist.go's `tableList`: `TableList.TableList`.

For the first three, a pure function of a snapshot (`ListState`, `ModelState`, `AppState`)
states what each method does. The method promises exactly that function's result, so
`App.Update` is specified by composing its panes' steps. The lemmas about those pure
functions carry the properties.

Modules, one per source component:
- `Base`: options and Go errors.
- `Text`: UTF-8 byte length, decimal printing, `strconv.Atoi`'s language, `strings.TrimSpace`, `strings.ToLower`.
- `Messages`: the messages and requests.
- `Widgets`: the widget records.
- `Keys`: keys.go.
- `States`: state.go.
- `Tabs`: tabs.go and the tab clamps.
- `Shaping`: building display columns and rows.
- `Editing`: form.go's validator, fields and header.
- `List`: list.go.
- `TableList`: tablelist.go.
- `Query`: query.go.
- `TableModel`: the `model` of table.go, data.go, form.go and info.go.
- `App`: app.go.
- `Seed`: seed.go's confirmation.

The repository is in the middle of a refactor and declares some things twice. Both versions are modelled:
- table.go and data.go each define `setDataTable`: `TableModel.LoadData` and `TableModel.LoadDataFresh`. `model.Update` calls table.go's.
- list.go and tablelist.go each define `tableList`: the `List` and `TableList` modules. `App` uses list.go's, the one with `setFocus`.
- tabs.go's tab constants repeat table.go's and are declared once.
- The two `dataView` bodies (table.go and data.go) are identical and are defined once, as `TableModel.DataView`.
- `model`'s fields are the union of the fields the four files use. `editTab` is declared in none of the files, so it is a constant the model is constructed with.

Where the code and its description disagree, the model follows the code:
- the Info tab shows `dataView`, not `infoView` (table.go:143-149);
- `selectedTable` never clears the selection (see Findings).

## Model

| member | source | states |
|---|---|---|
| Base.Unwrap | internal/database/seed.go:51 | a `%w`-wrapped error unwraps to its cause, and its message is the context followed by the cause's message |
| Text.ByteLen | internal/models/table.go:208 | Go's `len` of a string counts UTF-8 bytes: between one and four per character |
| Text.ByteLenAscii | internal/models/data.go:42 | for ASCII text the byte length is the character count |
| Text.Atoi | internal/models/form.go:65 | `strconv.Atoi` accepts exactly an optional sign, then one or more decimal digits, then a value in the 64-bit range |
| Text.DecimalRoundTrip | internal/models/info.go:49 | a `%d`-printed int parses back with `Atoi` to the same value |
| Text.Decimal | internal/models/info.go:49 | `%d` gives at least one character: a minus sign exactly for a negative number, then decimal digits with no leading zero unless the number is 0 |
| Text.BoolText | internal/models/info.go:52 | `%v` of a bool is "true" exactly for true and "false" exactly for false, and neither parses as a number |
| Text.TrimSpace | internal/database/seed.go:54 | the trimmed text neither starts nor ends with white space |
| Text.TrimSpaceSplit | internal/database/seed.go:54 | TrimSpace removes only white space from the two ends |
| Text.TrimSpacePadded | internal/database/seed.go:54 | text with non-space ends trims to itself, whatever white space surrounds it |
| Text.IsSpace | internal/database/seed.go:54 | among ASCII characters white space is exactly the space and tab through carriage return; no white space is a digit or a letter |
| Text.ToLower | internal/database/seed.go:54 | the length is kept; each ASCII upper-case letter becomes its lower-case letter, every other character is kept, and no upper-case ASCII letter is left |
| Keys.BindingForExact | internal/models/keys.go:20-69 | a key triggers a binding exactly when it is one of that binding's keys |
| Keys.KeyAlphabet | internal/models/keys.go:29-64 | Quit is exactly "q"/"ctrl+c"; Back is "esc"; Help is "?"; Left is "left"/"h"; Right is "right"/"l"; Enter is "enter"; Edit is "e" |
| Keys.NoKeyBoundTwice | internal/models/keys.go:20-69 | no key string is bound to two bindings |
| Keys.ShortHelp | internal/models/keys.go:72-74 | two bindings: the one shown as "?" / "toggle help", then the one shown as "q/ctrl+c" / "quit" |
| Keys.FullHelp | internal/models/keys.go:77-84 | four groups, each of two distinct bindings |
| Keys.FullHelpShape | internal/models/keys.go:72-84 | the full help has 4 groups of 2, leaves out exactly Left, Right, Edit and Reset, and contains both bindings of the short help |
| States.StateName | internal/models/state.go:30-44 | stateTableList (0) is named "Table List" and stateTableView (1) "Table View"; every other value is "Unknown", so `String` is total |
| Tabs.TabLeft | internal/models/table.go:70-71 | Left gives `max(activeTab-1, 0)`: one tab back, never below the first |
| Tabs.TabRight | internal/models/table.go:72-73 | Right gives `min(activeTab+1, len(tabs)-1)`: it stops at the last tab and does not wrap |
| Tabs.KeyTabInRange | internal/models/table.go:69-74 | moving by key keeps the index inside a non-empty tab bar |
| Tabs.EndsAreFixed | internal/models/tabs.go:39-44 | Left on the first tab and Right on the last leave the index unchanged |
| Tabs.NewTabsModel | internal/models/tabs.go:24-29 | exactly the tabs ["Data", "Info", "Query"], with Data active |
| Tabs.Update | internal/models/tabs.go:35-48 | Left and Right move the tab by the clamps and emit `switchTabCmd` with the new index; every other message changes nothing and returns no command |
| Tabs.RunInRange | internal/models/tabs.go:35-48 | the bound `0 <= activeTab <= len(tabs)-1` holds after any sequence of messages |
| Widgets.StyledTable | internal/models/style.go:68-87 | `newTable()` is `table.New()` with focus on and height 10: no columns, no rows, cursor 0, no width |
| Widgets.BuildItems | internal/models/list.go:41-44 | the index loop builds one list item per table name, in order |
| Shaping.ColumnWidth | internal/models/table.go:207-210 | a column is 10 wide when its name is at most 10 bytes, else the length plus 2; so it is at least 10 and wider than any longer name |
| Shaping.DisplayColumns | internal/models/table.go:205-216 | one column per name, in order, titled by the name |
| Shaping.AsciiColumnWidth | internal/models/data.go:41-44 | for ASCII names the width rule reads in characters |
| Shaping.BuildColumns | internal/models/query.go:43-54 | the index loop that fills the column array yields exactly the display columns |
| Shaping.CopyRows | internal/models/table.go:221-224 | the rows are copied one for one, in order |
| Shaping.DataTableWith | internal/models/table.go:196-231 | the existing data table gets the display columns and the rows, is focused, has its cursor at the top, and keeps its size |
| Shaping.FreshDataTable | internal/models/data.go:36-62 | the display columns of the descriptors and the rows, focused, cursor 0, in a table of `newTable()`'s size: 10 rows tall, no width |
| Shaping.FreshTableForgetsPrevious | internal/models/data.go:36 | the fresh table does not depend on the previous one: nothing of a previously shown table survives |
| Shaping.DataColumnsFollowDescriptors | internal/models/data.go:39-52 | one display column per descriptor, titled by its name, at least 10 wide, and len+2 when the name is longer than 10 |
| Shaping.QueryTableWith | internal/models/table.go:237-260 | the query table is replaced, with 15-wide columns and the rows, only when there is no error and there are rows; otherwise it is untouched |
| Shaping.ResultsTableWith | internal/models/query.go:42-66 | the same rule, and the replaced table's height becomes the pane height less 5 |
| Shaping.InfoColumns | internal/models/info.go:31-38 | the info table has six header columns, one per cell of an info row; each is at least 5 wide and wider than its title, and no two titles are the same |
| Shaping.InfoRows | internal/models/info.go:42-56 | one info row per column descriptor, in order |
| Shaping.InfoRow | internal/models/info.go:48-55 | each info row has six cells |
| Shaping.BuildInfoRows | internal/models/info.go:42-56 | the index loop yields exactly those rows |
| Shaping.InfoTableOf | internal/models/info.go:28-60 | the info table has the six headers and the descriptors' rows, and is focused at the top |
| Shaping.InfoRowReadsBack | internal/models/info.go:44-55 | the CID cell parses back to the CID; name and type are copied; the flags print "true"/"false"; the default prints as itself, or "NULL" when absent |
| Shaping.NullDefaultIndistinguishable | internal/models/info.go:44-47 | an absent default and a literal "NULL" default give the same row |
| Editing.Validate | internal/models/form.go:57-72 | only the exact type "INTEGER" restricts, and it accepts exactly "NULL" and what `Atoi` parses; a rejection is "Not an integer" |
| Editing.OnlyIntegerRestricts | internal/models/form.go:59-70 | "TEXT" and every other type string accept every value |
| Editing.IntegerExamples | internal/models/form.go:61-70 | "INTEGER" rejects "" and accepts every printed int and "NULL"; "integer", "INT" and "" accept everything |
| Editing.EditForm | internal/models/form.go:47-79 | one field per column and then exactly one trailing "Save" confirmation; the form starts normal, with no errors |
| Editing.EditFormFields | internal/models/form.go:49-72 | input i is keyed and titled by column i's name, is pre-filled from row[i], edits cell i, and validates by column i's type |
| Editing.EditFormHasOneConfirm | internal/models/form.go:75 | exactly the last field is a confirmation |
| Editing.FormView | internal/models/form.go:13-28 | with no form (nil), reading `m.form.State` panics: no view; a completed form shows "Success!"; otherwise the header is "Edit Entry", or "Error: " and the first error when there are errors |
| List.Initial | internal/models/list.go:25-32 | the new list is focused and has no items or tables |
| List.WithFocus | internal/models/list.go:34-36 | the focus flag becomes exactly f, and nothing else changes |
| List.WithTables | internal/models/list.go:38-47 | the names are stored as given; there is one item per name, in order; the title is "Database Tables"; nothing else changes |
| List.WithSize | internal/models/list.go:49-53 | width and height are stored and passed on to the list |
| List.EnterSelection | internal/models/list.go:63-68 | a selection is made exactly on the Enter key while an item is selected, and it is that item's name |
| List.Step | internal/models/list.go:59-74 | Enter on a selected item returns `selectTableCmd` with its name, and the list widget does not see the key; everything else goes to the widget |
| List.StepRequests | internal/models/list.go:59-74 | the only command of its own is a selection of an item that is in the list |
| List.BorderColour | internal/models/list.go:76-92 | the border is "62" exactly when focused and "240" exactly when not |
| List.TableList.Update | internal/models/list.go:59-74 | the in-place list does what `List.Step` says |
| List.TableList.constructor | internal/models/list.go:25-32 | the new list is exactly `Initial` |
| List.TableList.SetFocus | internal/models/list.go:34-36 | the in-place setter is exactly `WithFocus` |
| List.TableList.SetTables | internal/models/list.go:38-47 | the in-place setter is exactly `WithTables` |
| List.TableList.SetSize | internal/models/list.go:49-53 | the in-place setter is exactly `WithSize` |
| TableList.TableList.constructor | internal/models/tablelist.go:24-28 | the other list starts with no selection, no items and no tables |
| TableList.TableList.SetTables | internal/models/tablelist.go:30-39 | the names are stored unchanged; one item per name, in order; the title is "Database Tables" |
| TableList.TableList.SetSize | internal/models/tablelist.go:45-49 | width and height are stored and passed on to the list |
| TableList.TableList.SelectedTable | internal/models/tablelist.go:51-55 | returns the stored name, and the model keeps it |
| TableList.TableList.SelectedTableTwice | internal/models/tablelist.go:51-55 | two calls return the same name: the clear on the receiver copy is lost |
| TableList.TableList.TakeSelectedTable | internal/models/tablelist.go:51-55 | the intended version returns the name and clears it |
| TableList.TableList.TakeSelectedTableTwice | internal/models/tablelist.go:51-55 | with the intended version, a second call returns "" |
| TableList.TableList.Update | internal/models/tablelist.go:57-73 | Enter on a selected item stores its name, returns no command, and skips the list; everything else goes to the list |
| Query.InitialInput | internal/models/query.go:21-24 | the query input starts empty and focused, 50 wide, with placeholder "SELECT * FROM table_name" |
| Query.QueryModel.constructor | internal/models/query.go:20-30 | the query model starts with that input, a default table, and no results or error |
| Query.QueryModel.SetSize | internal/models/query.go:32-36 | width and height are stored; the input becomes width-4 wide |
| Query.QueryModel.SetResults | internal/models/query.go:38-67 | error and rows are overwritten every time; the table is replaced only on success with rows, 15-wide columns and height-5 tall |
| Query.QueryModel.Update | internal/models/query.go:73-87 | ctrl+u resets the input, returns no command and is not passed on; everything else goes to the input |
| Query.QueryPane | internal/models/query.go:89-100 | the error is shown when set; the table only when there is no error and there are rows; otherwise nothing follows the input |
| Query.ViewPrecedence | internal/models/query.go:93-97 | with an error set, neither the rows nor the table matter to the view |
| Query.QueryModel.View | internal/models/query.go:89-100 | "SQL Query", the input, then the error when set, else the table when there are results, else nothing |
| TableModel.NewModelState | internal/models/table.go:263-294 | 3 tabs with Data active, no table, both tables the focused 10-row table, the query input empty and focused, no edit row or form |
| TableModel.Resized | internal/models/table.go:189-194 | size stored; the data table is 2 narrower; the query input is exactly as wide |
| TableModel.LoadData | internal/models/table.go:196-231 | name and columns come from the message; the page resets to 0; the data table shows the new columns and rows; nothing else changes |
| TableModel.LoadDataFresh | internal/models/data.go:30-63 | the same, and the Data tab becomes active and the data table is built afresh |
| TableModel.WithQueryResult | internal/models/table.go:233-261 | error and rows are always overwritten; the query table follows `QueryTableWith`; nothing else changes |
| TableModel.WithInfoTable | internal/models/info.go:28-60 | the info table describes the current columns; nothing else changes |
| TableModel.Intercept | internal/models/table.go:75-87 | after the tab move, Edit on the Data or Info tab is swallowed, and ctrl+u on the Query tab clears the input; nothing else is consumed |
| TableModel.Delegate | internal/models/table.go:95-102 | the Data and Info tabs pass the message to the data table, the Query tab to the query input, any other tab to nothing |
| TableModel.ModelStep | internal/models/table.go:63-104 | a loaded table sets name, columns and page 0; a query result sets error and rows; other messages leave those fields; a command is returned only while one of the three panes is active |
| TableModel.ModelStepFrame | internal/models/table.go:63-104 | Update changes neither the labels, nor the size, nor the edit row or form; the tab moves only by key; the only command is the widget's |
| TableModel.ModelStepArrows | internal/models/table.go:70-73 | Left gives `max(activeTab-1, 0)` and Right gives `min(activeTab+1, len(tabs)-1)` |
| TableModel.ModelStepInRange | internal/models/table.go:63-104 | every Update keeps the active tab inside the tab bar |
| TableModel.ModelRunInRange | internal/models/table.go:63-104 | so does every sequence of Updates |
| TableModel.NewModelStaysInThreeTabs | internal/models/table.go:286-293 | from `newModel`, Update keeps the active tab in {0, 1, 2} |
| TableModel.CtrlUClears | internal/models/table.go:82-86 | ctrl+u on the Query tab resets the input, returns no command, and is not passed on |
| TableModel.EditKeySwallowed | internal/models/table.go:76-81 | Edit on the Data or Info tab changes nothing and returns no command |
| TableModel.TableDataLoadedStep | internal/models/table.go:88-89 | a loaded table sets the name and the columns and resets the page to 0; the data table also sees the message while it is shown |
| TableModel.QueryResultStep | internal/models/table.go:91-92 | a query result always overwrites error and rows, and replaces the query table only on success with rows |
| TableModel.RowSelected | internal/models/form.go:39-80 | `selectedRow` and `toEdit` are both the selected row; "Edit" is appended and `editTab` becomes active; the edit form is built over the row |
| TableModel.RowSelectedShape | internal/models/form.go:40-79 | the tab count grows by one, the earlier tabs are unchanged, the row is shared, every input edits an existing cell, and `editTab == len(tabs)` puts the new tab in range |
| TableModel.EditSucceeded | internal/models/form.go:30-37 | the tabs are exactly ["Data", "Info", "Query"], tab t is active, and the row references and the form are cleared |
| TableModel.EditRoundTrip | internal/models/form.go:30-80 | selecting a row and then succeeding restores the default tabs and leaves no edit state |
| TableModel.FormViewOnlyWhileEditing | internal/models/form.go:13-14 | `formView` has a form to read only while a row is edited: after `newModel` and after `onEditSuccess` (form.go:36) the form is nil and `formView` panics; right after `onRowSelect` it shows "Edit Entry" above the form |
| TableModel.Model.OnRowSelect | internal/models/form.go:39-80 | builds the fields with a loop; the result equals `RowSelected`; the row is shared |
| TableModel.Model.FormWrite | internal/models/form.go:56 | a value the form writes through input j's pointer lands in `toEdit` and is seen in `selectedRow` |
| TableModel.Model.Update | internal/models/table.go:63-104 | the in-place Update is exactly `ModelStep` |
| TableModel.Model.constructor | internal/models/table.go:263-294 | the new model is exactly `NewModelState`, with the given Edit-tab index |
| TableModel.Model.SetSize | internal/models/table.go:189-194 | the in-place setter is exactly `Resized` |
| TableModel.Model.OnEditSuccess | internal/models/form.go:30-37 | the in-place reset is exactly `EditSucceeded` |
| TableModel.Model.View | internal/models/table.go:143-149 | the pane under the tab bar is `SelectedView` of the model, and the data view on the Info tab |
| TableModel.Model.SetDataTable | internal/models/table.go:196-231 | the in-place setter is exactly `LoadData` |
| TableModel.Model.SetDataTableFresh | internal/models/data.go:30-63 | the in-place setter is exactly `LoadDataFresh` |
| TableModel.Model.SetQueryResult | internal/models/table.go:233-261 | the in-place setter is exactly `WithQueryResult` |
| TableModel.Model.SetInfoTable | internal/models/info.go:28-60 | the in-place setter is exactly `WithInfoTable` |
| TableModel.TablePaneGuard | internal/models/data.go:12-20 | the data pane shows "No table selected" exactly when no table is loaded |
| TableModel.PageTitleReadsBack | internal/models/data.go:20 | the title is "Table: <name> (Page <n>)", and n reads back as currentPage+1 |
| TableModel.InfoTabShowsData | internal/models/table.go:143-149 | the Info tab shows the same pane as the Data tab |
| TableModel.PageTitle | internal/models/data.go:17-20 | the title starts "Table: <name> (Page ", ends with ")", and has at least one character between |
| TableModel.TablePane | internal/models/data.go:12-28 | without a table the pane is "No table selected"; with one it starts with the title and ends with the table text |
| TableModel.DataView | internal/models/table.go:158-174 | "No table selected" without a table, else the title, a blank line and the data table |
| TableModel.InfoView | internal/models/info.go:10-26 | the same pane around the info table: the data view of a model whose data table is the info table |
| TableModel.QueryView | internal/models/table.go:176-187 | "SQL Query", the input, then the error when set, else the query table when there are rows, else nothing |
| TableModel.SelectedView | internal/models/table.go:143-149 | the data view on the Data and Info tabs, the query view on the Query tab, nothing on any other tab |
| App.NewAppState | internal/models/app.go:30-42 | the App starts with the full help, the focus on the list, not ready, and no error |
| App.GoDiv | internal/models/app.go:65 | Go's integer division truncates toward zero |
| App.ListWidthSplit | internal/models/app.go:65-66 | the list gets `width*30/100`, rounded toward zero (99 gives 29, -99 gives -29), and the table view gets the rest |
| App.ResizeSplit | internal/models/app.go:57-70 | a window size stores width and height and sets ready; list and table widths add up to the window width; both get the height less the help height less 2 |
| App.Resize | internal/models/app.go:57-70 | size stored and ready; list and table widths add up to the window width; both heights are the height less the help less 2; nothing else changes |
| App.Received | internal/models/app.go:56-101 | at most one command, a load or an edit execution; focus moves to the table view only on a selection; ready only by a size; an error message sets the error |
| App.Dispatch | internal/models/app.go:103-115 | the earlier commands come first and at most one is added; only the panes change; on the list the list is focused and the table view untouched, on the table view the list is unfocused |
| App.AppStep | internal/models/app.go:51-117 | Quit closes the store once and returns `tea.Quit`; nothing else closes it; a ready App stays ready; Quit, Back and Help change only focus, list, help and store |
| App.QuitPreempts | internal/models/app.go:74-76 | Quit closes the store and returns `tea.Quit` before any pane sees the key, whatever has the focus |
| App.QuitKeys | internal/models/app.go:74-76 | the App quits exactly on "q" and "ctrl+c" |
| App.BackToList | internal/models/app.go:78-83 | Back moves the focus to the list and sets its focus flag, returns no command, and does not route the key; on the list it changes nothing |
| App.HelpToggles | internal/models/app.go:85-87 | Help flips `ShowAll` only, returns no command, and two presses restore the App |
| App.DispatchRequests | internal/models/app.go:103-115 | the routing adds only widget commands and table selections |
| App.TableSelectedLoads | internal/models/app.go:92-94 | a selected table moves the focus to the table view and queues exactly one load, of that table at page 0 |
| App.EditSubmitExecutes | internal/models/app.go:96-97 | an edit submission queues its execution |
| App.ErrStored | internal/models/app.go:99-100 | an error message becomes the latest error |
| App.TablesLoadedStored | internal/models/app.go:89-90 | loaded table names reach the list |
| App.StepFocusLinked | internal/models/app.go:103-115 | every Update keeps the list's focus flag equal to "the focus is on the list" |
| App.RunFocusLinked | internal/models/app.go:34-41 | from `NewApp`, the focus invariant holds after any sequence of messages |
| App.StepReady | internal/models/app.go:57-60 | only a window size makes the App ready, and nothing makes it unready |
| App.RunReady | internal/models/app.go:57-60 | after a sequence of messages the App is ready exactly if it was ready already or a window size arrived |
| App.ScreenOf | internal/models/app.go:120-136 | the view is "Loading..." exactly while the App is not ready |
| App.LoadingUntilSized | internal/models/app.go:121-123 | from `NewApp`, the view is "Loading..." exactly until a window-size message has been processed |
| App.App.Update | internal/models/app.go:51-117 | the in-place Update is exactly `AppStep` |
| App.App.constructor | internal/models/app.go:30-42 | the new App is exactly `NewAppState`, with two fresh panes |
| App.App.Receive | internal/models/app.go:56-101 | the type switch: for Quit, Back and Help it is already `AppStep` and stops; otherwise it is `Received` |
| App.App.Route | internal/models/app.go:103-115 | the routing is exactly `Dispatch` |
| App.App.View | internal/models/app.go:120-136 | the screen is `ScreenOf` of the App, and "Loading..." exactly while not ready |
| Seed.AcceptsIffPadded | internal/database/seed.go:54-55 | the answer is accepted iff, lower-cased, it is "y" or "yes" with only white space around it |
| Seed.AnswerExamples | internal/database/seed.go:54-58 | "Y\n", "  YES " and "yes\r\n" are accepted; "", "n", "yeah" and "y e s" are not |
| Seed.AcceptsOverwrite | internal/database/seed.go:54-55 | an accepted answer is, once lower-cased, "y" or "yes" with only white space around it |
| Seed.PromptOverwrite | internal/database/seed.go:40-61 | it prints the warning first; a failed read gives false and the error wrapped with "Failed to read input: "; a declined answer prints "Seeding cancelled." and gives (false, nil) |
| Seed.CheckEmpty | internal/database/seed.go:12-38 | a listing error is returned and nothing is seeded; an empty database is seeded without a prompt; when tables exist, seeding happens iff the answer is accepted, and an accepted answer prints exactly the warning, "Seeding" and, without a seed error, the success line; a seed error is returned and the success line is not printed |

## Left out

- Styling and layout: internal/models/style.go and every lipgloss style, border glyph, colour, padding, join and margin. The views are modelled only by their text choices. `App.ScreenOf` names the parts it joins. `TableModel.TablePane` joins the title and the table with a blank line.
- The tab bar rendering loops in table.go's and tabs.go's `View`: these only pick border glyphs and sum frame widths for the styles.
- `formView`'s `TrimSuffix` and its margin: the rendered form body is an input.
- Editing.FormView: the nil-form panic at form.go:14 is modelled only as a missing view (`None`), not as the crash of the program. `model.View` never calls `formView` (table.go:143-149), so nothing in the model reaches it.
- Widget internals: table cursor and scrolling, list filtering and cursor movement, text input editing and cursor, huh navigation and validation runs. These are the `Library` functions and record fields. `SetRows` clamping the cursor is not modelled; `GotoTop` sets the cursor to 0.
- How the form's non-input fields are stored: the Save confirmation's pointer to `confirmEdit` is not followed.
- All database I/O: internal/database/init.go, query.go and dummy.go, and `execSeed`. `CheckEmpty` takes the outcomes of listing the tables, reading the answer and running the seed as inputs.
- internal/models/commands.go and the command constructors (`loadTableDataCmd`, `execEditCmd`, `selectTableCmd`, `switchTabCmd`): they are `Request` values. `tea.Batch` scheduling, `textinput.Blink` and asynchronous execution are not modelled.
- `App.Init`: it only schedules the initial table load and the cursor blink.
- The database store: `Close` is counted in `storeCloses`.
- internal/render/ (a superseded prototype), main.go, internal/utils/utils.go and internal/models/tabledata.go: start-up, flags, logging, and a declaration without behaviour.
- The help widget's rendered height: it is `Library.helpHeight`.
- Go's fixed-width `int` arithmetic (`w - 2`, `height - 5`, `w * 30`): integers here are unbounded. `Atoi`'s range is modelled exactly.
- Text.ToLower: lowers only ASCII letters, because Go's full Unicode case mapping is a table this model does not carry. No non-ASCII character lowers to "y", "e" or "s", so the seed answer test is unaffected.
- TableModel.RowSelected: requires a row with at least one cell per column. Go indexes `row[i]` at form.go:55 and panics with an index out of range on a shorter row; the panic is not modelled.
- TableModel.Model.OnRowSelect: the same requirement and the same unmodelled panic.
- Editing.EditFields: the same requirement, for the `row[i]` placeholder of each input.
- Editing.EditForm: the same requirement, through `EditFields`.
- `database.Column` is declared in none of the modelled files. `Messages.Column` assumes its fields from their uses: `CID` an int (printed with `%d` at info.go:49), `Name`, `Type` and `*DefaultValue` strings, and `NotNull` and `PK` bools. The "true"/"false" cells of `Shaping.InfoRowReadsBack` depend on the bool assumption.
- Go 1.22 per-iteration loop variables are assumed for the validator closure: field i validates against column i's type.

## Findings

| source | as written | input that shows it | evidently intended | confidence | as-written member | corrected member |
|---|---|---|---|---|---|---|
| internal/models/tablelist.go:51-55 | `selectedTable` has a value receiver, so `tl.selected = ""` clears a copy and the selection is never consumed | a list whose `selected` is "users": two calls both return "users" | a pointer receiver that returns the name once and clears it | medium, not executed | TableList.TableList.SelectedTableTwice | TableList.TableList.TakeSelectedTableTwice |
