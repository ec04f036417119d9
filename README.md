# Delete-confirmation file browser and error helpers, in Dafny

This project models two parts of a small Go repository and proves properties of the models.

**The file browser (filemanage/3/main.go)** lists the entries of the current directory. The user
can delete the selected entry after answering a confirmation dialog, which is drawn over the list.
The model covers four parts:

- the byte-length test for names that are too long for the dialog (more than 24 bytes);
- the dialog width rule: the longest content line plus 4, clamped to `[10, 30]`;
- the overlay: the rendered list is split into lines, an insert row is chosen (selected index + 3
  for the "too long" dialog, + 2 for the y/n dialog), the row is moved up when the dialog would run
  past the bottom, and the dialog lines are written over the base lines in place;
- the `Update` state machine over the list and confirm screens.

Removal and re-listing are outputs of `Update`, not real calls: the removed name, and the command
`GetFiles`. The bubbles list widget is reduced to its items, its selected index and its width. What
the widget does with a message it receives is a function parameter (`ListLib`). lipgloss rendering
is a set of opaque string functions (`Renderer`).

**Package errors (errors/multierror.go, errors/errors.go)** has two parts:

- a multi-error `Stack`, with `Append` (drops nils, flattens nested stacks by one level),
  `ErrorOrNil`, `WrappedErrors` and the list formatters;
- `New`, which folds its variadic arguments left to right into a `base` error, and `base.Error`.

Go's `error` values are the datatype `ErrorValues.Err`. A Go string is a Dafny `string` whose
characters each stand for one byte, so `|s|` is Go's `len(s)`.

The overlay has a latent hazard. When the dialog has more lines than the base view, the
moved-up insert row is negative and the first write panics (main.go lines 165/170 and 191/196).
The model keeps this behaviour: `View` returns `Panic`. `Browser.ComposePanicsIffTaller` and the
contract of `Browser.View` prove that it panics exactly then, and `Browser.TallDialogPanics` gives
a concrete state that reaches it. The code does not clamp the row at 0, so the model does not
either. Confirming on an empty list also panics (the type assertion on a nil selected item); the
model returns `Panic` there too.

Three behaviours of the code to note, which the model keeps:

- on the confirm screen, a key other than y/Y/n/N/esc is handed to the list widget, which may move
  the selection under the open dialog;
- "q" and "ctrl+c" are handled only on the list screen;
- after a refresh, the selected index is whatever the list library leaves.

## Model

| member | source | states |
|---|---|---|
| Browser.IsFileNameTooLong | filemanage/3/main.go:65-67 | holds exactly when the byte length of the name exceeds 24 |
| Browser.Longest | filemanage/3/main.go:71-77 | the result is the length of some line and no line is longer (0 for no lines) |
| Browser.GetDialogWidth | filemanage/3/main.go:69-88 | the loop's result equals the clamped width; it always lies in [10, 30] (upper clamp is listWidth); every line plus 4 fits unless clamped at 30; when L + 4 is in [10, 30] it is exactly some line length plus 4; empty content gives 10 |
| Browser.InsertPosition | filemanage/3/main.go:163-166 | the row is the anchor (selected index + 3, or + 2 at lines 189-190) when the dialog fits below it, and otherwise the row that puts the dialog's last line on the base view's last line; with a non-negative anchor and a dialog no taller than the base view the row is in range; with a taller dialog it is negative |
| Browser.OverlaidLines | filemanage/3/main.go:167-172 | the overlay keeps the number of lines; a line is replaced exactly when its index lies in [pos, pos + len(dialog)) and below the line count; every other line is unchanged |
| Browser.Splice | filemanage/3/main.go:167-172 | the in-place write loop panics exactly when the row is negative and the dialog non-empty, then writing nothing; otherwise the array becomes the overlay of its old contents |
| Browser.DialogFits | filemanage/3/main.go:163-172 | when the dialog is no taller than the base view, every written index is in [0, len(lines)), the whole dialog is written at the insert row and the lines before and after are unchanged |
| Browser.Overlay | filemanage/3/main.go:160-173 | splitting, placing, padding and writing in place gives the composed frame, or a panic |
| Browser.ComposePanicsIffTaller | filemanage/3/main.go:163-170 | the overlay panics exactly when the dialog has more lines than the base view |
| Browser.View | filemanage/3/main.go:141-204 | the list screen shows the list view unchanged; the confirm screen panics on an empty selection, and otherwise panics exactly when the chosen dialog is taller than the list view |
| Browser.TallDialogPanics | filemanage/3/main.go:164-170 | a confirm screen over a one-line list view with a two-line dialog panics, for a short or a too-long selected name alike (the y/n variant at lines 190-196 moves the row to -1 too) |
| Browser.SelectedItem | filemanage/3/main.go:115 | an item is selected exactly when the index is that of an item, and it is that item |
| Browser.Transition | filemanage/3/main.go:94-139 | a removal only ever names the selected item, comes from the confirm screen and is at most 24 bytes; the screen changes only through "d"/"D", "y"/"Y" and "n"/"N"/"esc" |
| Browser.Update | filemanage/3/main.go:94-139 | "d"/"D" on the list opens the dialog with no command; "q"/"ctrl+c" quits and leaves the model; "y"/"Y" returns to the list and removes the selected name once and asks for a refresh, or removes nothing when the name is too long, or panics on an empty list; "n"/"N"/"esc" returns to the list; a resize changes only width, height and list width; a removal happens exactly when a short selected name is confirmed |
| Browser.RemovalsAreShort | filemanage/3/main.go:114-126 | over any sequence of messages, no removed name is longer than 24 bytes |
| Browser.NoRemovalWithoutDialog | filemanage/3/main.go:104-111 | starting on the list screen, messages without "d"/"D" remove nothing and stay on the list screen |
| Browser.DeleteScenario | filemanage/3/main.go:104-129 | with entries "a.txt" and "dir1", "d" then "y" removes "a.txt" once, returns to the list and requests a refresh; "d" then "n" removes nothing and leaves the model as it was |
| Browser.LongNameScenario | filemanage/3/main.go:114-120 | with a 40-byte name, "d" then "y" removes nothing and returns to the list |
| Text.Split | errors/multierror.go:62-72 | a split always has at least one piece, so the `case 0` branch is unreachable; no piece contains the separator |
| Text.JoinSplit | errors/multierror.go:62-71 | joining the pieces with the separator gives the original string back |
| Text.AtoiItoa | errors/multierror.go:87-89 | the `%d` count reads back as the number |
| ErrorValues.Message | errors/errors.go:15-17 | an `errorString`'s `Error()` is exactly its string; a stack and a base render through their own `Error` |
| ErrorValues.StackError | errors/multierror.go:17-25 | a stack without `ErrorFormat` renders with `RichListFormatFunc`; otherwise with the supplied formatter |
| ErrorValues.BaseError | errors/errors.go:32-49 | error-severity diagnostics render through hcl (the text writer when files are present); otherwise a non-nil `Err` renders as `Err.Error()`; otherwise "" |
| ErrorValues.DiagnosticsHideErr | errors/errors.go:33-35 | a base whose diagnostics hold an error renders them even when `Err` is a typed-nil `*Stack`, which that branch never reads |
| ErrorValues.CustomFormatSeesNils | errors/multierror.go:17-24 | a stack with a caller's own formatter renders as that formatter applied to its list, nil entries included |
| MultiError.Append | errors/multierror.go:115-147 | on a stack, the old errors stay as a prefix and the format is kept; a typed-nil stack acts as a fresh one; a non-stack first argument acts as `[err]` (when non-nil) followed by `errs` on a fresh stack; each argument adds itself, its stack's errors or nothing |
| MultiError.FlattenLength | errors/multierror.go:124-135 | the number of added errors is one per non-nil plain error plus the length of each non-nil nested stack |
| MultiError.FlattenConcat | errors/multierror.go:124-135 | what a list of arguments adds is what its two halves add, in order |
| MultiError.AppendInTwoSteps | errors/multierror.go:123-137 | appending `a` and then `b` gives the same errors as appending `a` followed by `b` |
| MultiError.FlattenMembers | errors/multierror.go:123-135 | an error is added exactly when it is a non-nil plain argument or sits directly in a stack argument's list |
| MultiError.NestedStackStaysNested | errors/multierror.go:126-129 | a stack nested inside a stack argument is added as it is, not flattened further |
| MultiError.FlattenRenderable | errors/multierror.go:124-135 | from arguments that are nil or renderable, and stack arguments whose own lists are renderable (whatever their format), `Append` adds only renderable errors |
| MultiError.ErrorOrNil | errors/multierror.go:31-40 | nil exactly for a nil stack or a stack with no errors; otherwise the same stack |
| MultiError.ErrorOrNilAfterAppend | errors/multierror.go:31-40 | after `Append` onto a fresh stack, `ErrorOrNil` is nil exactly when every argument added nothing |
| MultiError.WrappedErrors | errors/multierror.go:49-51 | the stack's errors, unchanged |
| MultiError.FormatText | errors/multierror.go:60-76 | the loop's result keeps line 0 and puts "\n\t  " before each later line; this equals replacing every newline by "\n\t  " |
| MultiError.IndentLinesReplaces | errors/multierror.go:62-71 | indenting the continuation lines is the same as rewriting every newline |
| MultiError.IndentLinesSingleLine | errors/multierror.go:62-71 | a message without a newline is rendered unchanged |
| MultiError.RichListFormatFunc | errors/multierror.go:59-90 | the loop over `points` builds the rich list: one error as "1 error occurred:\n\t* msg\n\n", otherwise the count, " errors occurred:\n\t", the bullets joined by "\n\t", and "\n\n" |
| MultiError.ListFormatFunc | errors/multierror.go:94-107 | the loop over `points` builds the plain list in the same shape, without indenting continuation lines |
| MultiError.RichListIsListForSingleLines | errors/multierror.go:59-107 | when no message has a newline, the two formatters give the same text |
| MultiError.RichListIndentsContinuations | errors/multierror.go:78-79 | a single multi-line error is listed with each newline followed by a tab and two spaces |
| MultiError.HeaderCount | errors/multierror.go:87-89 | for other than one error, the text starts with the decimal count, which reads back as the number of errors, then " errors occurred:" |
| ErrorsNew.CaseOf | errors/errors.go:59-73 | a `Diagnostics` value is taken as diagnostics although it is an error; the default (panicking) case takes exactly a nil interface or a value of another type |
| ErrorsNew.New | errors/errors.go:53-85 | no arguments give nil; an argument of another type panics; otherwise the fields after the left-to-right fold, and nil when there are no diagnostics and `Err` is nil; a non-nil result always carries a diagnostic or an error |
| ErrorsNew.LastErrWins | errors/errors.go:58-71 | `Err` is set by the last string or error argument; a string becomes an `errorString` |
| ErrorsNew.NoErrArgument | errors/errors.go:59-71 | without a string or error argument, `Err` stays nil, even with diagnostics arguments |
| ErrorsNew.LastDiagsWins | errors/errors.go:66-67 | the last diagnostics argument is the one kept |
| ErrorsNew.FilesAloneAreNil | errors/errors.go:80-82 | `New(files)` alone, or with empty diagnostics, yields nil |
| ErrorsNew.LastStringIsMessage | errors/errors.go:60-61 | when the last error-setting argument is the string s and the diagnostics hold no error, the result's `Error()` is exactly s |
| ErrorsNew.WarningsOnlyRenderEmpty | errors/errors.go:32-49 | for any arguments that do not panic, a non-nil result whose fold leaves `Err` nil and no error-severity diagnostic is a `base` with at least one diagnostic, and renders as "" |

## Left out

- `getFiles`, `os.Remove` and the `fmt.Printf` of a failed removal are I/O. `Update` outputs the name it would remove and the `GetFiles` command. Since a failed removal changes nothing else, its outcome is not an input.
- `Init`, `main`, `tea.NewProgram` and the asynchrony of `tea.Cmd` belong to the event loop, which is not modelled.
- bubbles `list.Model` internals are function parameters (`ListLib`): cursor movement on keys the browser does not handle, selection clamping in `SetItems`, and filtering. `SelectedItem` reads the selected index of the whole item list; the library reads the visible (filtered) items. So "the selected index stays valid after a refresh" is not proved: it depends on the library.
- lipgloss rendering is opaque (`Renderer`): the dialog style and its border and padding, `JoinVertical`, `Width`/`Align`/`PaddingLeft` and ANSI display width. The width rule measures bytes, as the code does.
- Browser.View: both dialog variants share one `Overlay` method; the source repeats the same loop twice with different constants. The dialog style's explicit left alignment in the first variant equals lipgloss's default, so both use one `dialogBox` function.
- MultiError.Append: returns the grown stack as a value. It does not model that the caller's `*Stack` is changed in place and that every other holder of that pointer sees the change. An argument that is the same stack as the first is read as it was before the call.
- ErrorValues.Message: needs `Renderable`. A nil or typed-nil error may sit in the list of a stack with a caller's own formatter (`ErrorValues.CustomFormatSeesNils`), and in a base's `Err` when its diagnostics hold an error (`ErrorValues.DiagnosticsHideErr`). It may not sit anywhere that `Error()` is called on it: in the list of a stack rendered by `RichListFormatFunc` or `ListFormatFunc`, or in the `Err` of a base whose diagnostics hold no error. There Go panics, or `ListFormatFunc` prints fmt's nil text. `Append` adds no nil argument itself, but copies whatever a stack argument's list holds (`MultiError.FlattenRenderable`).
- MultiError.ListFormatFunc: requires every error in the list to be renderable. Go's `ListFormatFunc` formats with `%s` and does not panic on a nil entry: it prints `%!s(<nil>)` for a nil interface and `<nil>` for a nil `*Stack` (lines 96 and 101). Those two fallback texts are not modelled.
- ErrorValues.StackError: requires a non-nil stack. `(*Stack).Error` on a nil `*Stack` panics when it reads `ErrorFormat` (line 18), and that panic is not modelled.
- MultiError.WrappedErrors: requires a non-nil stack. On a nil `*Stack` it panics when it reads `Errors` (line 50), and that panic is not modelled.
- A caller's own `ErrorFormatFunc` is opaque: a numbered function in `Foreign`. The same holds for `hcl.Diagnostics.Error` and hcl's diagnostic text writer.
- `Errorf` is only `fmt.Sprintf` and is not modelled.
- b.go, a.go and main.go are not part of this model. They are demos of a validator library and of the error package, and call file-system functions of the standard library and `errors.Wrap` and `errors.Detail`, which are defined outside these files.
