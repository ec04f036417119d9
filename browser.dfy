/**
 * The delete-confirmation file browser of filemanage/3/main.go: the dialog width rule, the
 * overlay of a dialog onto the rendered list, the `Update` state machine and `View`.
 *
 * The bubbles list widget is its items, the selected index and its width; what the library
 * does with a message it receives is a parameter (`ListLib`). lipgloss rendering is a set of
 * opaque string functions (`Renderer`). Directory listing and `os.Remove` are not called: a
 * removal is an output of `Update`, and a refresh is the command `GetFiles`.
 */
module Browser {
  import opened Text
  import opened Outcomes

  const ListWidth := 30
  const MaxDialogContentWidth := 24
  const MinDialogContentWidth := 10

  datatype Option<T> = None | Some(value: T)

  /** One directory entry as the list shows it. */
  datatype Item = Item(title: string, desc: string)

  datatype Screen = ListScreen | ConfirmScreen

  /** What the browser reads and writes of the bubbles `list.Model`. */
  datatype ListState = ListState(items: seq<Item>, index: nat, width: int)

  /** `list.Model.SelectedItem`: nil when the index is not that of an item. */
  function SelectedItem(l: ListState): (r: Option<Item>)
    ensures r.Some? <==> l.index < |l.items|
    ensures r.Some? ==> r.value == l.items[l.index]
  {
    if l.index < |l.items| then Some(l.items[l.index]) else None
  }

  /** The browser's `model` (its styles are part of the `Renderer`). */
  datatype Model = Model(list: ListState, screen: Screen, width: int, height: int)

  /** The messages `Update` receives: a window resize, a key press (as `msg.String()`), a fresh
      directory listing, or anything else, which only the list widget looks at. */
  datatype Msg =
    | WindowSize(width: int, height: int)
    | Key(key: string)
    | Items(items: seq<Item>)
    | OtherMsg(id: nat)

  /** The command returned to the runtime: none, quit, re-list the directory, or one of the
      list widget's own. */
  datatype Cmd = NoCmd | Quit | GetFiles | ListCmd(id: nat)

  /** The bubbles list library: `SetItems` and `Update`. */
  datatype ListLib = ListLib(
    setItems: (ListState, seq<Item>) -> ListState,
    update: (ListState, Msg) -> (ListState, Cmd))

  /** What `Update` returns, plus the name passed to `os.Remove`, if it was called. */
  datatype Step = Step(model: Model, cmd: Cmd, removed: Option<string>)

  /** `isFileNameTooLong`: a byte-length test. */
  function IsFileNameTooLong(filename: string): (r: bool)
    ensures r <==> |filename| > 24
  {
    |filename| > MaxDialogContentWidth
  }

  // ---------------------------------------------------------------- dialog width

  /** The length of the longest of `lines`. */
  function Longest(lines: seq<string>): (r: nat)
    ensures forall i :: 0 <= i < |lines| ==> |lines[i]| <= r
    ensures |lines| > 0 ==> exists i :: 0 <= i < |lines| && |lines[i]| == r
    ensures |lines| == 0 ==> r == 0
    decreases |lines|
  {
    if |lines| == 0 then 0
    else
      var m := Longest(lines[..|lines| - 1]);
      if |lines[|lines| - 1]| > m then |lines[|lines| - 1]| else m
  }

  /** The width `getDialogWidth` computes: longest line plus border and padding, clamped. */
  function DialogWidth(content: string): int
  {
    var w := Longest(Split(content, '\n')) + 4;
    if w < MinDialogContentWidth then MinDialogContentWidth
    else if w > ListWidth then ListWidth
    else w
  }

  /** `getDialogWidth`, as the loop the source runs. */
  method GetDialogWidth(content: string) returns (width: int)
    ensures width == DialogWidth(content)
    ensures MinDialogContentWidth <= width <= ListWidth
    ensures var lines := Split(content, '\n');
            forall i :: 0 <= i < |lines| ==> |lines[i]| + 4 <= width || width == ListWidth
    ensures var lines := Split(content, '\n');
            MinDialogContentWidth <= Longest(lines) + 4 <= ListWidth ==>
              exists i :: 0 <= i < |lines| && width == |lines[i]| + 4
    ensures content == "" ==> width == MinDialogContentWidth
  {
    var lines := Split(content, '\n');
    var maxLen := 0;
    for i := 0 to |lines|
      invariant maxLen == Longest(lines[..i])
    {
      assert lines[..i + 1][..i] == lines[..i];
      if |lines[i]| > maxLen {
        maxLen := |lines[i]|;
      }
    }
    assert lines[..|lines|] == lines;
    width := maxLen + 4;
    if width < MinDialogContentWidth {
      width := MinDialogContentWidth;
    }
    if width > ListWidth {
      width := ListWidth;
    }
  }

  // ---------------------------------------------------------------- overlay

  /** Where the dialog's first line goes: `anchor`, moved up so that the dialog does not run
      past the last line. Nothing stops it from going below zero. */
  function InsertPosition(anchor: int, lineCount: int, dialogCount: int): (r: int)
    ensures 0 <= anchor && 0 <= dialogCount <= lineCount ==> 0 <= r && r + dialogCount <= lineCount
    ensures 0 <= anchor && lineCount < dialogCount ==> r < 0
    ensures r <= anchor
    ensures anchor + dialogCount <= lineCount ==> r == anchor
    ensures anchor + dialogCount > lineCount ==> r + dialogCount == lineCount
  {
    if anchor + dialogCount > lineCount then lineCount - dialogCount else anchor
  }

  /** `base` with the lines from `pos` on replaced by `dialog`, as far as `base` reaches. */
  function Overlaid(base: seq<string>, dialog: seq<string>, pos: int): seq<string>
  {
    if pos < 0 || pos >= |base| then base
    else
      var k := if |dialog| < |base| - pos then |dialog| else |base| - pos;
      base[..pos] + dialog[..k] + base[pos + k..]
  }

  /** The overlay keeps the number of lines, replaces exactly the lines of the dialog's span that
      exist, and leaves every other line as it was. */
  lemma OverlaidLines(base: seq<string>, dialog: seq<string>, pos: int)
    requires pos >= 0 || |dialog| == 0
    ensures |Overlaid(base, dialog, pos)| == |base|
    ensures forall j :: 0 <= j < |base| ==>
              Overlaid(base, dialog, pos)[j] == if pos <= j < pos + |dialog| then dialog[j - pos] else base[j]
  {
    if 0 <= pos < |base| {
      var k := if |dialog| < |base| - pos then |dialog| else |base| - pos;
      var r := base[..pos] + dialog[..k] + base[pos + k..];
      forall j | 0 <= j < |base|
        ensures r[j] == if pos <= j < pos + |dialog| then dialog[j - pos] else base[j]
      {
        if j < pos {
          assert r[j] == base[..pos][j];
        } else if j < pos + k {
          assert r[j] == dialog[..k][j - pos];
        } else {
          assert r[j] == base[pos + k..][j - pos - k];
        }
      }
    }
  }

  /** The splice loop of `View`: writes `dialog[i]` to `lines[pos + i]` for each index that is
      below the number of lines. A negative index is out of range, and Go panics at the first
      such write, before anything was written. */
  method Splice(lines: array<string>, dialog: seq<string>, pos: int) returns (panicked: bool)
    modifies lines
    ensures panicked <==> pos < 0 && |dialog| > 0
    ensures panicked ==> lines[..] == old(lines[..])
    ensures !panicked ==> lines[..] == Overlaid(old(lines[..]), dialog, pos)
  {
    for i := 0 to |dialog|
      invariant i > 0 ==> pos >= 0
      invariant forall j :: 0 <= j < lines.Length ==>
                  lines[j] == if pos <= j < pos + i then dialog[j - pos] else old(lines[j])
    {
      if pos + i < lines.Length {
        if pos + i < 0 {
          assert lines[..] == old(lines[..]);
          return true;
        }
        lines[pos + i] := dialog[i];
      }
    }
    OverlaidLines(old(lines[..]), dialog, pos);
    assert lines[..] == Overlaid(old(lines[..]), dialog, pos);
    return false;
  }

  /** When the dialog has no more lines than the base view, it lands entirely inside it: every
      dialog line is written, at an index in range, and nothing else changes. */
  lemma DialogFits(base: seq<string>, dialog: seq<string>, anchor: nat)
    requires |dialog| <= |base|
    ensures var pos := InsertPosition(anchor, |base|, |dialog|);
            0 <= pos && pos + |dialog| <= |base| &&
            |Overlaid(base, dialog, pos)| == |base| &&
            Overlaid(base, dialog, pos)[pos..pos + |dialog|] == dialog &&
            Overlaid(base, dialog, pos)[..pos] == base[..pos] &&
            Overlaid(base, dialog, pos)[pos + |dialog|..] == base[pos + |dialog|..]
  {
    var pos := InsertPosition(anchor, |base|, |dialog|);
    OverlaidLines(base, dialog, pos);
    var r := Overlaid(base, dialog, pos);
    assert r[pos..pos + |dialog|] == dialog by {
      forall j | 0 <= j < |dialog| ensures r[pos..pos + |dialog|][j] == dialog[j] {
        assert r[pos + j] == dialog[j];
      }
    }
  }

  // ---------------------------------------------------------------- rendering

  datatype Align = Left | Center

  /** lipgloss, as opaque functions. */
  datatype Renderer = Renderer(
    listView: ListState -> string,             // list.Model.View
    joinCentered: seq<string> -> string,       // lipgloss.JoinVertical(lipgloss.Center, ...)
    dialogBox: (string, int) -> string,        // the dialog style at a width; its alignment is left
    block: (string, int, Align, nat) -> string)  // NewStyle().Width(w).Align(a).PaddingLeft(p).Render

  /** The text of the "too long" dialog. */
  function TooLongContent(r: Renderer): string
  {
    r.joinCentered(["File name too long", "for confirmation dialog", "", "(press esc)"])
  }

  /** The text of the y/n dialog for `title`. */
  function ConfirmContent(title: string, r: Renderer): string
  {
    r.joinCentered(["Delete " + title + "?", "", "(y/n)"])
  }

  /** The rendered dialog shown for a selected entry named `title`. */
  function DialogBox(title: string, r: Renderer): string
  {
    var content := if IsFileNameTooLong(title) then TooLongContent(r) else ConfirmContent(title, r);
    r.dialogBox(content, DialogWidth(content))
  }

  /** The base view with the dialog's lines, each padded, laid over it from the insert position. */
  function Compose(base: string, dialog: string, anchor: int, r: Renderer, lineWidth: int, align: Align, padLeft: nat)
    : Outcome<string>
  {
    var lines := Split(base, '\n');
    var dl := Split(dialog, '\n');
    var padded := seq(|dl|, i requires 0 <= i < |dl| => r.block(dl[i], lineWidth, align, padLeft));
    var pos := InsertPosition(anchor, |lines|, |dl|);
    if pos < 0 then Panic else Ok(Join(Overlaid(lines, padded, pos), "\n"))
  }

  /** The frame `View` returns. */
  function ViewSpec(m: Model, r: Renderer): Outcome<string>
  {
    var base := r.listView(m.list);
    match m.screen
    case ListScreen => Ok(base)
    case ConfirmScreen =>
      match SelectedItem(m.list)
      case None => Panic
      case Some(it) =>
        var dialog := DialogBox(it.title, r);
        if IsFileNameTooLong(it.title) then
          Compose(base, dialog, m.list.index + 3, r, DialogWidth(TooLongContent(r)), Center, 0)
        else
          Compose(base, dialog, m.list.index + 2, r, ListWidth, Left, 2)
  }

  /** The overlay panics exactly when the dialog has more lines than the base view. */
  lemma ComposePanicsIffTaller(base: string, dialog: string, anchor: nat, r: Renderer, lineWidth: int, align: Align, padLeft: nat)
    ensures Compose(base, dialog, anchor, r, lineWidth, align, padLeft).Panic? <==>
              |Split(dialog, '\n')| > |Split(base, '\n')|
  {
  }

  /** `View`. Both dialog variants go through the same splice; they differ in their text, the
      offset below the selected row (3 for "too long", 2 for y/n) and how each line is padded. */
  method View(m: Model, r: Renderer) returns (out: Outcome<string>)
    ensures out == ViewSpec(m, r)
    ensures m.screen == ListScreen ==> out == Ok(r.listView(m.list))
    ensures m.screen == ConfirmScreen && SelectedItem(m.list).None? ==> out.Panic?
    ensures m.screen == ConfirmScreen && SelectedItem(m.list).Some? ==>
              (out.Panic? <==>
                 |Split(DialogBox(SelectedItem(m.list).value.title, r), '\n')| > |Split(r.listView(m.list), '\n')|)
  {
    var base := r.listView(m.list);
    if m.screen == ListScreen {
      return Ok(base);
    }
    var selected := SelectedItem(m.list);
    if selected.None? {
      // the type assertion on a nil item panics
      return Panic;
    }
    var title := selected.value.title;
    var content, anchor, lineWidth, align, padLeft;
    if IsFileNameTooLong(title) {
      content := TooLongContent(r);
      anchor := m.list.index + 3;
      align, padLeft := Center, 0;
    } else {
      content := ConfirmContent(title, r);
      anchor := m.list.index + 2;
      align, padLeft := Left, 2;
    }
    var width := GetDialogWidth(content);
    lineWidth := if IsFileNameTooLong(title) then width else ListWidth;
    var dialog := r.dialogBox(content, width);
    out := Overlay(base, dialog, anchor, r, lineWidth, align, padLeft);
    ComposePanicsIffTaller(base, dialog, anchor, r, lineWidth, align, padLeft);
  }

  /** The overlay both branches of `View` run: split the base view and the dialog into lines,
      place the dialog and write its padded lines over the base lines in place. */
  method Overlay(base: string, dialog: string, anchor: int, r: Renderer, lineWidth: int, align: Align, padLeft: nat)
    returns (out: Outcome<string>)
    ensures out == Compose(base, dialog, anchor, r, lineWidth, align, padLeft)
  {
    var baseLines := Split(base, '\n');
    var lines := new string[|baseLines|](i requires 0 <= i < |baseLines| => baseLines[i]);
    var dialogLines := Split(dialog, '\n');
    var pos := InsertPosition(anchor, lines.Length, |dialogLines|);
    var padded := seq(|dialogLines|, i requires 0 <= i < |dialogLines| => r.block(dialogLines[i], lineWidth, align, padLeft));
    assert lines[..] == baseLines;
    var panicked := Splice(lines, padded, pos);
    if panicked {
      return Panic;
    }
    return Ok(Join(lines[..], "\n"));
  }

  /** A concrete frame that panics: a one-line base view and a two-line dialog, whichever of the
      two dialogs the selected name calls for. */
  lemma TallDialogPanics(items: seq<Item>)
    requires |items| > 0
    ensures var r := Renderer(l => "", ss => "", (c, w) => "top\nbottom", (s, w, a, p) => s);
            ViewSpec(Model(ListState(items, 0, ListWidth), ConfirmScreen, 80, 24), r) == Panic
  {
    var r := Renderer(l => "", ss => "", (c, w) => "top\nbottom", (s, w, a, p) => s);
    var dl := Split("top\nbottom", '\n');
    SplitCount("top\nbottom", '\n');
    assert Occurrences("top\nbottom", '\n') == 1 by {
      assert "top\nbottom"[1..] == "op\nbottom";
      assert "op\nbottom"[1..] == "p\nbottom";
      assert "p\nbottom"[1..] == "\nbottom";
      assert "\nbottom"[1..] == "bottom";
      SplitCount("bottom", '\n');
      SplitWithoutSeparator("bottom", '\n');
    }
    assert |Split("", '\n')| == 1;
  }

  // ---------------------------------------------------------------- update

  /** What a key does on a screen, as the source's two switches decide. */
  datatype KeyAction = OpenDialog | QuitApp | Confirm | Cancel | PassOn

  function Action(screen: Screen, key: string): KeyAction
  {
    match screen
    case ListScreen =>
      if key == "d" || key == "D" then OpenDialog
      else if key == "q" || key == "ctrl+c" then QuitApp
      else PassOn
    case ConfirmScreen =>
      if key == "y" || key == "Y" then Confirm
      else if key == "n" || key == "N" || key == "esc" then Cancel
      else PassOn
  }

  /** The message handed on to the list widget, whose own command is returned. */
  function Delegate(m: Model, msg: Msg, lib: ListLib): Outcome<Step>
  {
    var (l, cmd) := lib.update(m.list, msg);
    Ok(Step(m.(list := l), cmd, None))
  }

  /** The transition table of `Update`. */
  function Transition(m: Model, msg: Msg, lib: ListLib): (r: Outcome<Step>)
    ensures r.Ok? && r.value.removed.Some? ==>
              !IsFileNameTooLong(r.value.removed.value) && m.screen == ConfirmScreen &&
              SelectedItem(m.list).Some? && SelectedItem(m.list).value.title == r.value.removed.value
    ensures r.Ok? && r.value.model.screen != m.screen ==>
              msg.Key? && Action(m.screen, msg.key) in {OpenDialog, Confirm, Cancel}
  {
    match msg
    case WindowSize(w, h) => Ok(Step(m.(width := w, height := h, list := m.list.(width := w)), NoCmd, None))
    case Key(k) =>
      (match Action(m.screen, k)
       case OpenDialog => Ok(Step(m.(screen := ConfirmScreen), NoCmd, None))
       case QuitApp => Ok(Step(m, Quit, None))
       case Confirm =>
         (match SelectedItem(m.list)
          case None => Panic
          case Some(it) =>
            if IsFileNameTooLong(it.title) then Ok(Step(m.(screen := ListScreen), NoCmd, None))
            else Ok(Step(m.(screen := ListScreen), GetFiles, Some(it.title))))
       case Cancel => Ok(Step(m.(screen := ListScreen), NoCmd, None))
       case PassOn => Delegate(m, msg, lib))
    case Items(items) => Delegate(m.(list := lib.setItems(m.list, items)), msg, lib)
    case OtherMsg(_) => Delegate(m, msg, lib)
  }

  /** `Update`. The source receives the model by value, sets fields of that copy and returns it. */
  method Update(m: Model, msg: Msg, lib: ListLib) returns (r: Outcome<Step>)
    ensures r == Transition(m, msg, lib)
    // list screen: "d"/"D" opens the dialog, "q"/"ctrl+c" quits, nothing is removed
    ensures m.screen == ListScreen && msg in {Key("d"), Key("D")} ==>
              r == Ok(Step(m.(screen := ConfirmScreen), NoCmd, None))
    ensures m.screen == ListScreen && msg in {Key("q"), Key("ctrl+c")} ==> r == Ok(Step(m, Quit, None))
    // confirm screen: "y"/"Y" removes the selected entry unless its name is too long
    ensures m.screen == ConfirmScreen && msg in {Key("y"), Key("Y")} ==>
              match SelectedItem(m.list)
              case None => r.Panic?
              case Some(it) =>
                r == Ok(Step(m.(screen := ListScreen),
                             if IsFileNameTooLong(it.title) then NoCmd else GetFiles,
                             if IsFileNameTooLong(it.title) then None else Some(it.title)))
    ensures m.screen == ConfirmScreen && msg in {Key("n"), Key("N"), Key("esc")} ==>
              r == Ok(Step(m.(screen := ListScreen), NoCmd, None))
    // a resize changes the sizes only
    ensures msg.WindowSize? ==>
              r == Ok(Step(m.(width := msg.width, height := msg.height, list := m.list.(width := msg.width)), NoCmd, None))
    // a removal happens exactly when a short selected name is confirmed
    ensures r.Ok? && r.value.removed.Some? <==>
              m.screen == ConfirmScreen && msg in {Key("y"), Key("Y")} &&
              SelectedItem(m.list).Some? && !IsFileNameTooLong(SelectedItem(m.list).value.title)
  {
    var next := m;
    match msg {
      case WindowSize(w, h) =>
        next := next.(width := w);
        next := next.(height := h);
        next := next.(list := next.list.(width := w));
        return Ok(Step(next, NoCmd, None));
      case Key(k) =>
        if next.screen == ListScreen {
          if k == "d" || k == "D" {
            next := next.(screen := ConfirmScreen);
            return Ok(Step(next, NoCmd, None));
          } else if k == "q" || k == "ctrl+c" {
            return Ok(Step(next, Quit, None));
          }
        } else {
          if k == "y" || k == "Y" {
            var selected := SelectedItem(next.list);
            if selected.None? {
              return Panic;
            }
            if IsFileNameTooLong(selected.value.title) {
              // the name is too long for the dialog: skip the removal
              next := next.(screen := ListScreen);
              return Ok(Step(next, NoCmd, None));
            }
            var removed := Some(selected.value.title);
            next := next.(screen := ListScreen);
            return Ok(Step(next, GetFiles, removed));
          } else if k == "n" || k == "N" || k == "esc" {
            next := next.(screen := ListScreen);
            return Ok(Step(next, NoCmd, None));
          }
        }
      case Items(items) =>
        next := next.(list := lib.setItems(next.list, items));
      case OtherMsg(_) =>
    }
    var (l, cmd) := lib.update(next.list, msg);
    next := next.(list := l);
    return Ok(Step(next, cmd, None));
  }

  // ---------------------------------------------------------------- runs

  /** The names removed while `msgs` are processed in order from `m`; a panic ends the run. */
  function Removals(m: Model, msgs: seq<Msg>, lib: ListLib): seq<string>
    decreases |msgs|
  {
    if |msgs| == 0 then []
    else
      match Transition(m, msgs[0], lib)
      case Panic => []
      case Ok(step) =>
        (if step.removed.Some? then [step.removed.value] else []) + Removals(step.model, msgs[1..], lib)
  }

  /** The model after `msgs`, or `None` if one of them panicked. */
  function Final(m: Model, msgs: seq<Msg>, lib: ListLib): Option<Model>
    decreases |msgs|
  {
    if |msgs| == 0 then Some(m)
    else
      match Transition(m, msgs[0], lib)
      case Panic => None
      case Ok(step) => Final(step.model, msgs[1..], lib)
  }

  /** However long the session, no name longer than 24 bytes is ever removed. */
  lemma {:induction false} RemovalsAreShort(m: Model, msgs: seq<Msg>, lib: ListLib)
    ensures forall i :: 0 <= i < |Removals(m, msgs, lib)| ==> !IsFileNameTooLong(Removals(m, msgs, lib)[i])
    decreases |msgs|
  {
    if |msgs| > 0 {
      match Transition(m, msgs[0], lib)
      case Panic =>
      case Ok(step) =>
        RemovalsAreShort(step.model, msgs[1..], lib);
    }
  }

  /** From the list screen, a run of messages without "d"/"D" removes nothing and never leaves the
      list screen: the dialog must be shown first. */
  lemma {:induction false} NoRemovalWithoutDialog(m: Model, msgs: seq<Msg>, lib: ListLib)
    requires m.screen == ListScreen
    requires forall i :: 0 <= i < |msgs| ==> msgs[i] != Key("d") && msgs[i] != Key("D")
    ensures Removals(m, msgs, lib) == []
    ensures Final(m, msgs, lib).Some? ==> Final(m, msgs, lib).value.screen == ListScreen
    decreases |msgs|
  {
    if |msgs| > 0 {
      match Transition(m, msgs[0], lib)
      case Panic =>
      case Ok(step) =>
        assert step.model.screen == ListScreen;
        NoRemovalWithoutDialog(step.model, msgs[1..], lib);
    }
  }

  /** Entries "a.txt" and "dir1", first selected: "d" then "y" removes "a.txt" once, returns to
      the list and asks for a refresh; "d" then "n" removes nothing and keeps the list. */
  lemma DeleteScenario(lib: ListLib)
    ensures var m := Model(ListState([Item("a.txt", "Size: 3 bytes"), Item("dir1", "Directory")], 0, ListWidth), ListScreen, 0, 0);
            Removals(m, [Key("d"), Key("y")], lib) == ["a.txt"] &&
            Final(m, [Key("d"), Key("y")], lib) == Some(m) &&
            Transition(m.(screen := ConfirmScreen), Key("y"), lib).value.cmd == GetFiles &&
            Removals(m, [Key("d"), Key("n")], lib) == [] &&
            Final(m, [Key("d"), Key("n")], lib) == Some(m)
  {
    var m := Model(ListState([Item("a.txt", "Size: 3 bytes"), Item("dir1", "Directory")], 0, ListWidth), ListScreen, 0, 0);
    var c := m.(screen := ConfirmScreen);
    assert Transition(m, Key("d"), lib) == Ok(Step(c, NoCmd, None));
    assert Transition(c, Key("y"), lib) == Ok(Step(m, GetFiles, Some("a.txt")));
    assert Transition(c, Key("n"), lib) == Ok(Step(m, NoCmd, None));
    assert [Key("d"), Key("y")][1..] == [Key("y")];
    assert [Key("d"), Key("n")][1..] == [Key("n")];
    assert [Key("y")][1..] == [];
    assert [Key("n")][1..] == [];
  }

  /** A 40-byte name: the dialog is the "too long" one and "y" removes nothing. */
  lemma LongNameScenario(lib: ListLib, name: string)
    requires |name| == 40
    ensures var m := Model(ListState([Item(name, "Directory")], 0, ListWidth), ListScreen, 0, 0);
            Removals(m, [Key("d"), Key("y")], lib) == [] &&
            Final(m, [Key("d"), Key("y")], lib) == Some(m)
  {
    var m := Model(ListState([Item(name, "Directory")], 0, ListWidth), ListScreen, 0, 0);
    var c := m.(screen := ConfirmScreen);
    assert Transition(m, Key("d"), lib) == Ok(Step(c, NoCmd, None));
    assert Transition(c, Key("y"), lib) == Ok(Step(m, NoCmd, None));
    assert [Key("d"), Key("y")][1..] == [Key("y")];
    assert [Key("y")][1..] == [];
  }
}
