/**
 * The terminal dashboard: a menu whose cursor moves with the arrow keys,
 * acknowledges the highlighted option on Enter and quits on "q".
 *
 * The runtime calls Update with each message and View after each update; the
 * model is a value, so Update returns the next model instead of changing one.
 */
module Dashboard {
  import opened Wrappers
  import opened GoStd

  /** The dashboard state: its title, the cursor position and the menu labels. */
  datatype Model = Model(title: string, selected: int, options: seq<string>)

  /** The cursor is on one of the options. */
  predicate Valid(m: Model) {
    0 <= m.selected < |m.options|
  }

  /** A message from the runtime: a key press, named as the runtime names it, or anything else. */
  datatype Msg = KeyMsg(key: string) | OtherMsg

  /** The command Update hands back to the runtime. */
  datatype Cmd = NoCmd | Quit

  /** What Update prints on standard output. */
  datatype Printed = Farewell | Executing(option: string)

  /** The outcome of one Update: the next model, or the index-out-of-range panic of Enter. */
  datatype Transition = Next(model: Model, cmd: Cmd, printed: Option<Printed>) | IndexPanic

  predicate IsHandledKey(msg: Msg) {
    msg.KeyMsg? && msg.key in {"q", "down", "up", "enter"}
  }

  /** The state at launch: cursor on the first of the five menu entries. */
  function InitialModel(): (m: Model)
    ensures Valid(m) && m.selected == 0 && |m.options| == 5
    ensures m.options[0] == "📡 Live Twitch Chat" && m.options[4] == "❌ Exit"
  {
    Model("Brightside Jack", 0,
          ["📡 Live Twitch Chat", "🖥 System Stats", "📰 News Feeds", "🤖 Jack AI", "❌ Exit"])
  }

  /** Key handling: q quits, down and up move the cursor without wrapping, enter acknowledges. */
  function Update(m: Model, msg: Msg): (r: Transition)
    // only Enter with the cursor off the list can fail
    ensures r.IndexPanic? <==> msg == KeyMsg("enter") && !Valid(m)
    ensures Valid(m) ==> r.Next? && Valid(r.model)
    // the title and the options never change, and the cursor moves by at most one
    ensures r.Next? ==> r.model.title == m.title && r.model.options == m.options
    ensures r.Next? ==> -1 <= r.model.selected - m.selected <= 1
    ensures r.Next? ==> (r.cmd == Quit <==> msg == KeyMsg("q"))
    ensures msg == KeyMsg("q") ==> r == Next(m, Quit, Some(Farewell))
    ensures msg == KeyMsg("down") ==>
              r.Next? && r.cmd == NoCmd && r.printed == None &&
              (r.model.selected == m.selected + 1 <==> m.selected < |m.options| - 1) &&
              (r.model.selected != m.selected + 1 ==> r.model == m)
    ensures msg == KeyMsg("up") ==>
              r.Next? && r.cmd == NoCmd && r.printed == None &&
              (r.model.selected == m.selected - 1 <==> m.selected > 0) &&
              (r.model.selected != m.selected - 1 ==> r.model == m)
    ensures msg == KeyMsg("enter") && Valid(m) ==>
              r == Next(m, NoCmd, Some(Executing(m.options[m.selected])))
    ensures !IsHandledKey(msg) ==> r == Next(m, NoCmd, None)
  {
    match msg
    case OtherMsg => Next(m, NoCmd, None)
    case KeyMsg(key) =>
      if key == "q" then
        Next(m, Quit, Some(Farewell))
      else if key == "down" then
        Next(if m.selected < |m.options| - 1 then m.(selected := m.selected + 1) else m, NoCmd, None)
      else if key == "up" then
        Next(if m.selected > 0 then m.(selected := m.selected - 1) else m, NoCmd, None)
      else if key == "enter" then
        if 0 <= m.selected < |m.options| then Next(m, NoCmd, Some(Executing(m.options[m.selected])))
        else IndexPanic
      else
        Next(m, NoCmd, None)
  }

  /** Where the event loop stands after a sequence of messages. */
  datatype Session = Session(model: Model, quit: bool, printed: seq<Printed>, consumed: nat) | Crashed

  /** The event loop: feed messages to Update until it asks to quit or the messages run out. */
  function Run(m: Model, msgs: seq<Msg>): (s: Session)
    // the loop reads messages in order, and only a quit leaves some unread
    ensures s.Session? ==> s.consumed <= |msgs|
    ensures s.Session? && s.quit ==> 1 <= s.consumed
    ensures s.Session? && !s.quit ==> s.consumed == |msgs|
    ensures s.Session? ==> s.model.options == m.options && s.model.title == m.title
    decreases |msgs|
  {
    if msgs == [] then Session(m, false, [], 0)
    else
      match Update(m, msgs[0])
      case IndexPanic => Crashed
      case Next(next, cmd, out) =>
        var printed := if out.Some? then [out.value] else [];
        if cmd == Quit then Session(next, true, printed, 1)
        else
          var rest := Run(next, msgs[1..]);
          if rest.Crashed? then Crashed
          else Session(rest.model, rest.quit, printed + rest.printed, rest.consumed + 1)
  }

  /** From a valid state no message sequence crashes or moves the cursor off the list. */
  lemma {:induction false} RunKeepsCursorInRange(m: Model, msgs: seq<Msg>)
    requires Valid(m)
    ensures var s := Run(m, msgs);
      s.Session? && Valid(s.model) && s.model.options == m.options && s.model.title == m.title &&
      s.consumed <= |msgs|
    decreases |msgs|
  {
    if msgs != [] {
      var t := Update(m, msgs[0]);
      if t.cmd != Quit {
        RunKeepsCursorInRange(t.model, msgs[1..]);
      }
    }
  }

  /** Once the loop has quit, whatever input follows is never processed. */
  lemma {:induction false} QuitIgnoresLaterInput(m: Model, msgs: seq<Msg>, later: seq<Msg>)
    requires Run(m, msgs).Session? && Run(m, msgs).quit
    ensures Run(m, msgs + later) == Run(m, msgs)
    decreases |msgs|
  {
    assert msgs != [];
    assert (msgs + later)[0] == msgs[0];
    var t := Update(m, msgs[0]);
    if t.Next? && t.cmd != Quit {
      assert (msgs + later)[1..] == msgs[1..] + later;
      QuitIgnoresLaterInput(t.model, msgs[1..], later);
    }
  }

  /** A loop that quit did so on a "q" key, and consumed nothing after it. */
  lemma {:induction false} QuitOnlyOnQ(m: Model, msgs: seq<Msg>)
    requires Run(m, msgs).Session? && Run(m, msgs).quit
    ensures var n := Run(m, msgs).consumed; 1 <= n <= |msgs| && msgs[n - 1] == KeyMsg("q")
    ensures forall i :: 0 <= i < Run(m, msgs).consumed - 1 ==> msgs[i] != KeyMsg("q")
    decreases |msgs|
  {
    var t := Update(m, msgs[0]);
    if t.Next? && t.cmd != Quit {
      QuitOnlyOnQ(t.model, msgs[1..]);
      var n := Run(m, msgs).consumed;
      forall i | 0 <= i < n - 1 ensures msgs[i] != KeyMsg("q") {
        if i > 0 { assert msgs[i] == msgs[1..][i - 1]; }
      }
    }
  }

  /** Pressing down past the last option, or up past the first, leaves the cursor at the edge. */
  lemma ClampedAtBothEnds()
    ensures var m := Model("Menu", 0, ["A", "B", "C"]);
      var down := KeyMsg("down");
      var up := KeyMsg("up");
      var bottom := Run(m, [down, down, down]);
      && bottom.Session? && bottom.model.selected == 2
      && Run(bottom.model, [up, up, up, up]).Session?
      && Run(bottom.model, [up, up, up, up]).model.selected == 0
  {
    var m := Model("Menu", 0, ["A", "B", "C"]);
    var down := KeyMsg("down");
    var up := KeyMsg("up");
    var m1, m2 := m.(selected := 1), m.(selected := 2);
    assert [down][1..] == [] && [down, down][1..] == [down] && [down, down, down][1..] == [down, down];
    assert [up][1..] == [] && [up, up][1..] == [up] && [up, up, up][1..] == [up, up];
    assert [up, up, up, up][1..] == [up, up, up];
    assert Run(m2, [down]) == Session(m2, false, [], 1);
    assert Run(m1, [down, down]) == Session(m2, false, [], 2);
    assert Run(m, [down, down, down]) == Session(m2, false, [], 3);
    assert Run(m, [up]) == Session(m, false, [], 1);
    assert Run(m, [up, up]) == Session(m, false, [], 2);
    assert Run(m1, [up, up, up]) == Session(m, false, [], 3);
    assert Run(m2, [up, up, up, up]) == Session(m, false, [], 4);
  }

  // Rendering

  const Instructions: string := "Use ↑ ↓ to navigate, Enter to select, Q to quit."

  /** Line `i` of the option list: the pointer or two blanks, a space, the label, a newline. */
  function OptionLine(options: seq<string>, selected: int, i: nat): string
    requires i < |options|
  {
    (if i == selected then "👉" else "  ") + " " + options[i] + "\n"
  }

  function OptionLines(options: seq<string>, selected: int): (lines: seq<string>)
    ensures |lines| == |options|
  {
    seq(|options|, i requires 0 <= i < |options| => OptionLine(options, selected, i))
  }

  /** The lines joined in order. */
  function Concat(lines: seq<string>): string {
    if lines == [] then "" else Concat(lines[..|lines| - 1]) + lines[|lines| - 1]
  }

  /** The whole frame: the styled title, the instructions, then the option list. */
  function Screen(styledTitle: string, m: Model): string {
    styledTitle + "\n\n" + Instructions + "\n\n" + Concat(OptionLines(m.options, m.selected))
  }

  /**
   * Renders one frame. The title is drawn by the styling library from a fixed
   * banner, so its styled text comes in as `styledTitle`.
   */
  method View(m: Model, styledTitle: string) returns (screen: string)
    ensures screen == Screen(styledTitle, m)
  {
    var optionsList := "";
    ghost var lines := OptionLines(m.options, m.selected);
    for i := 0 to |m.options|
      invariant optionsList == Concat(lines[..i])
    {
      var cursor := "  ";
      if i == m.selected {
        cursor := "👉";
      }
      assert lines[..i + 1][..i] == lines[..i];
      optionsList := optionsList + cursor + " " + m.options[i] + "\n";
    }
    assert lines[..|m.options|] == lines;
    screen := styledTitle + "\n\n" + Instructions + "\n\n" + optionsList;
  }

  /**
   * Each option gets one line, in order, ending with its label; the line at the
   * cursor starts with the pointer and every other line with three blanks.
   */
  lemma OptionLinesShape(options: seq<string>, selected: int, i: nat)
    requires i < |options|
    ensures var line := OptionLines(options, selected)[i];
      && HasSuffix(line, options[i] + "\n")
      && (HasPrefix(line, "👉 ") <==> i == selected)
      && (HasPrefix(line, "   ") <==> i != selected)
  {
    var line := OptionLines(options, selected)[i];
    var lead := if i == selected then "👉" else "  ";
    assert line == lead + " " + (options[i] + "\n");
    if i == selected {
      assert line[..2] == "👉 ";
      assert line[0] != ' ';
    } else {
      assert line[..3] == "   ";
      assert line[0] == ' ' && |line| >= 3;
    }
  }

  /** Exactly the line under a valid cursor carries the pointer. */
  lemma ExactlyOneMarkedLine(m: Model)
    requires Valid(m)
    ensures var lines := OptionLines(m.options, m.selected);
      (set i | 0 <= i < |lines| && HasPrefix(lines[i], "👉 ")) == {m.selected}
  {
    var lines := OptionLines(m.options, m.selected);
    forall i | 0 <= i < |lines|
      ensures HasPrefix(lines[i], "👉 ") <==> i == m.selected
    {
      OptionLinesShape(m.options, m.selected, i);
    }
  }
}
