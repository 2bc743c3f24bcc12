/** The key map (internal/models/keys.go): which key strings trigger which binding. */
module Keys {
  import opened Base

  datatype Binding = Up | Down | Left | Right | Quit | Back | Enter | Tab | Help | Filter | Edit | Reset

  /** Every binding of the key map, in declaration order. */
  const AllBindings: seq<Binding> := [Up, Down, Left, Right, Quit, Back, Enter, Tab, Help, Filter, Edit, Reset]

  /** `key.WithKeys(...)` of each binding. */
  function KeysOf(b: Binding): seq<string>
  {
    match b
    case Up => ["up", "k"]
    case Down => ["down", "j"]
    case Left => ["left", "h"]
    case Right => ["right", "l"]
    case Quit => ["q", "ctrl+c"]
    case Back => ["esc"]
    case Enter => ["enter"]
    case Tab => ["tab"]
    case Help => ["?"]
    case Filter => ["/"]
    case Edit => ["e"]
    case Reset => ["ctrl+z"]
  }

  /** `key.WithHelp(key, description)` of each binding. */
  function HelpOf(b: Binding): (string, string)
  {
    match b
    case Up => ("↑/k", "move up")
    case Down => ("↓/j", "move down")
    case Left => ("←/h", "move left")
    case Right => ("→/l", "move right")
    case Quit => ("q/ctrl+c", "quit")
    case Back => ("esc", "back")
    case Enter => ("enter", "enter")
    case Tab => ("tab/←/h/→/l", "switch tab")
    case Help => ("?", "toggle help")
    case Filter => ("/", "filter")
    case Edit => ("e", "edit")
    case Reset => ("ctrl+z", "undo")
  }

  /** `key.Matches(msg, b)`: the key's string is one of the binding's keys (all bindings are enabled). */
  predicate Matches(k: string, b: Binding)
  {
    k in KeysOf(b)
  }

  /** The first binding of `bs` that `k` triggers. */
  function FirstMatch(k: string, bs: seq<Binding>): (r: Option<Binding>)
    ensures r.Some? ==> r.value in bs && Matches(k, r.value)
    ensures r.None? ==> forall b :: b in bs ==> !Matches(k, b)
  {
    if bs == [] then None
    else if Matches(k, bs[0]) then Some(bs[0])
    else FirstMatch(k, bs[1..])
  }

  /** The binding a key string triggers, if any. */
  function BindingFor(k: string): Option<Binding>
  {
    FirstMatch(k, AllBindings)
  }

  /** No key string is bound to more than one binding. */
  lemma NoKeyBoundTwice(k: string, b1: Binding, b2: Binding)
    requires Matches(k, b1) && Matches(k, b2)
    ensures b1 == b2
  {
  }

  /** `BindingFor` names exactly the binding a key matches: the binding order never decides. */
  lemma BindingForExact(k: string, b: Binding)
    ensures BindingFor(k) == Some(b) <==> Matches(k, b)
  {
    assert b in AllBindings;
    if Matches(k, b) {
      var r := BindingFor(k);
      assert r.Some?;
      NoKeyBoundTwice(k, r.value, b);
    }
  }

  /** The key strings of the bindings the session logic tests. */
  lemma KeyAlphabet(k: string)
    ensures Matches(k, Quit) <==> k == "q" || k == "ctrl+c"
    ensures Matches(k, Back) <==> k == "esc"
    ensures Matches(k, Help) <==> k == "?"
    ensures Matches(k, Left) <==> k == "left" || k == "h"
    ensures Matches(k, Right) <==> k == "right" || k == "l"
    ensures Matches(k, Enter) <==> k == "enter"
    ensures Matches(k, Edit) <==> k == "e"
  {
  }

  /** The mini help: `?` and quit. */
  function ShortHelp(): (r: seq<Binding>)
    ensures |r| == 2
    ensures HelpOf(r[0]) == ("?", "toggle help") && HelpOf(r[1]) == ("q/ctrl+c", "quit")
  {
    [Help, Quit]
  }

  /** The expanded help: four columns of two bindings. */
  function FullHelp(): (r: seq<seq<Binding>>)
    ensures |r| == 4
    ensures forall i :: 0 <= i < |r| ==> |r[i]| == 2 && r[i][0] != r[i][1]
  {
    [[Up, Down], [Enter, Back], [Tab, Help], [Filter, Quit]]
  }

  /**
   * The full help has four groups of two, never lists Left, Right, Edit or Reset, lists every
   * other binding, and so contains both bindings of the mini help.
   */
  lemma FullHelpShape()
    ensures |FullHelp()| == 4
    ensures forall g :: g in FullHelp() ==> |g| == 2
    ensures forall g, b :: g in FullHelp() && b in g ==> b != Left && b != Right && b != Edit && b != Reset
    ensures forall b :: b in AllBindings && b != Left && b != Right && b != Edit && b != Reset ==>
              exists g :: g in FullHelp() && b in g
    ensures |ShortHelp()| == 2 && forall b :: b in ShortHelp() ==> exists g :: g in FullHelp() && b in g
  {
    var h := FullHelp();
    assert h == [[Up, Down], [Enter, Back], [Tab, Help], [Filter, Quit]];
    forall g, b | g in h && b in g
      ensures b != Left && b != Right && b != Edit && b != Reset
    {
      assert g == h[0] || g == h[1] || g == h[2] || g == h[3];
    }
    forall b | b in AllBindings && b != Left && b != Right && b != Edit && b != Reset
      ensures exists g :: g in h && b in g
    {
      if b == Up || b == Down { assert b in h[0]; }
      else if b == Enter || b == Back { assert b in h[1]; }
      else if b == Tab || b == Help { assert b in h[2]; }
      else { assert b in h[3]; }
    }
    assert Help in h[2] && Quit in h[3];
  }
}
