/**
 * Tab navigation (internal/models/tabs.go), and the clamped tab moves that the table view
 * (internal/models/table.go) repeats on its own `activeTab`.
 */
module Tabs {
  import opened Base
  import opened Messages
  import Keys

  /** The `tab` constants, numbered by `iota`. */
  const DataTab: int := 0
  const InfoTab: int := 1
  const QueryTab: int := 2

  const DefaultTabs: seq<string> := ["Data", "Info", "Query"]

  function Max(a: int, b: int): int { if a >= b then a else b }
  function Min(a: int, b: int): int { if a <= b then a else b }

  /** `max(active-1, dataTab)`: one tab left, stopping at the first. */
  function TabLeft(active: int): (r: int)
    ensures r >= DataTab
    ensures active >= 1 ==> r == active - 1
    ensures active <= 1 ==> r == DataTab
  {
    Max(active - 1, DataTab)
  }

  /** `min(active+1, len(tabs)-1)`: one tab right, stopping at the last (no wrap-around). */
  function TabRight(active: int, count: int): (r: int)
    ensures r <= count - 1
    ensures active + 1 <= count - 1 ==> r == active + 1
    ensures active + 1 >= count - 1 ==> r == count - 1
  {
    Min(active + 1, count - 1)
  }

  /** The tab after a key: Left takes precedence over Right, and anything else keeps the tab. */
  function KeyTab(active: int, k: string, count: int): int
  {
    if Keys.Matches(k, Keys.Left) then TabLeft(active)
    else if Keys.Matches(k, Keys.Right) then TabRight(active, count)
    else active
  }

  /** A tab index within a bar of `count` tabs. */
  predicate TabInRange(active: int, count: int)
  {
    0 <= active <= count - 1
  }

  /** Moving by key never leaves a non-empty tab bar. */
  lemma KeyTabInRange(active: int, k: string, count: int)
    requires TabInRange(active, count)
    ensures TabInRange(KeyTab(active, k, count), count)
  {
  }

  /** At the ends the moves are idempotent: Left at the first tab, Right at the last. */
  lemma EndsAreFixed(count: int)
    requires count >= 1
    ensures TabLeft(DataTab) == DataTab
    ensures TabRight(count - 1, count) == count - 1
    ensures TabLeft(TabLeft(DataTab)) == TabLeft(DataTab)
  {
  }

  // ---------------------------------------------------------------- tabsModel

  datatype TabsModel = TabsModel(tabs: seq<string>, activeTab: int)

  /** `newTabsModel()`. */
  function NewTabsModel(): (t: TabsModel)
    ensures t.tabs == ["Data", "Info", "Query"] && t.activeTab == DataTab
    ensures InRange(t)
  {
    TabsModel(DefaultTabs, DataTab)
  }

  /** `0 <= activeTab <= len(tabs)-1`. */
  predicate InRange(t: TabsModel)
  {
    TabInRange(t.activeTab, |t.tabs|)
  }

  /** `tabsModel.Update`: Left and Right move the tab and announce the new index; nothing else changes anything. */
  function Update(t: TabsModel, msg: Msg): (r: (TabsModel, seq<Request>))
    ensures r.0.tabs == t.tabs
    ensures msg.Key? && Keys.Matches(msg.key, Keys.Left) ==>
              r.0.activeTab == TabLeft(t.activeTab) && r.1 == [SwitchTab(r.0.activeTab)]
    ensures msg.Key? && Keys.Matches(msg.key, Keys.Right) ==>
              r.0.activeTab == TabRight(t.activeTab, |t.tabs|) && r.1 == [SwitchTab(r.0.activeTab)]
    ensures !(msg.Key? && (Keys.Matches(msg.key, Keys.Left) || Keys.Matches(msg.key, Keys.Right))) ==>
              r == (t, [])
  {
    if msg.Key? && Keys.Matches(msg.key, Keys.Left) then
      var t' := t.(activeTab := TabLeft(t.activeTab));
      (t', [SwitchTab(t'.activeTab)])
    else if msg.Key? && Keys.Matches(msg.key, Keys.Right) then
      var t' := t.(activeTab := TabRight(t.activeTab, |t.tabs|));
      (t', [SwitchTab(t'.activeTab)])
    else
      (t, [])
  }

  /** The model after a sequence of messages. */
  function Run(t: TabsModel, msgs: seq<Msg>): TabsModel
    decreases |msgs|
  {
    if msgs == [] then t else Run(Update(t, msgs[0]).0, msgs[1..])
  }

  /** Every Update keeps the tab index in range. */
  lemma UpdateInRange(t: TabsModel, msg: Msg)
    requires InRange(t)
    ensures InRange(Update(t, msg).0)
  {
  }

  /** From any in-range model, and so from `newTabsModel()`, no message sequence leaves the range. */
  lemma {:induction false} RunInRange(t: TabsModel, msgs: seq<Msg>)
    requires InRange(t)
    ensures InRange(Run(t, msgs))
    ensures Run(t, msgs).tabs == t.tabs
    decreases |msgs|
  {
    if msgs != [] {
      UpdateInRange(t, msgs[0]);
      RunInRange(Update(t, msgs[0]).0, msgs[1..]);
    }
  }
}
