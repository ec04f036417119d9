/**
 * The error values of package `errors` and how each renders through `Error()`.
 *
 * Go's `error` is an interface; the values that the package builds or inspects are the
 * constructors of `Err`. `*Stack` (multierror.go) and `*base` (errors.go) render each other
 * recursively, so their `Error()` methods live together here.
 */
module ErrorValues {
  import opened Text

  /** `hcl.DiagnosticSeverity`. */
  datatype Severity = DiagInvalid | DiagError | DiagWarning

  /** One `hcl.Diagnostic`, reduced to what the package reads of it. */
  datatype Diagnostic = Diagnostic(severity: Severity, summary: string, detail: string)

  /** `map[string]*hcl.File`: file name to source text. Only its size is ever inspected. */
  type Files = map<string, string>

  /** The `ErrorFormat` field of a `Stack`: nil, one of the two package formatters, or a caller's own. */
  datatype Format = NilFormat | ListFormat | RichListFormat | CustomFormat(id: nat)

  /** A value of Go's `error` interface. */
  datatype Err =
    | Nil                                                 // the nil interface
    | NilStack                                            // a typed nil `*Stack`
    | Stk(errors: seq<Err>, format: Format)               // a non-nil `*Stack`
    | ErrorString(s: string)                              // `*errorString`
    | Base(err: Err, files: Files, diags: seq<Diagnostic>)  // `*base`
    | Diags(diags: seq<Diagnostic>)                       // `hcl.Diagnostics`, which is an error too
    | Opaque(text: string)                                // any other error, by its `Error()` text

  /** Code outside the package that an `Error()` call may reach: a caller's `ErrorFormatFunc`,
      `hcl.Diagnostics.Error` and hcl's diagnostic text writer. */
  datatype Foreign = Foreign(
    custom: (nat, seq<Err>) -> string,
    diagsText: seq<Diagnostic> -> string,
    writeDiags: (Files, seq<Diagnostic>) -> string)

  /** `Error()` can be called on `e` without a nil dereference, here or in anything it renders.
      A caller's own formatter receives the stack's list as it is, and a base whose diagnostics
      hold an error never reads `Err`, so neither needs more of its parts. */
  predicate Renderable(e: Err)
    decreases e
  {
    match e
    case Nil => false
    case NilStack => false
    case Stk(es, f) => f.CustomFormat? || forall i :: 0 <= i < |es| ==> Renderable(es[i])
    case Base(err, _, diags) => HasErrors(diags) || err.Nil? || Renderable(err)
    case _ => true
  }

  predicate AllRenderable(es: seq<Err>)
  {
    forall i :: 0 <= i < |es| ==> Renderable(es[i])
  }

  /** `hcl.Diagnostics.HasErrors`: some diagnostic has error severity. */
  predicate HasErrors(diags: seq<Diagnostic>)
  {
    exists i :: 0 <= i < |diags| && diags[i].severity == DiagError
  }

  /** The `Error()` text of `e`. */
  function Message(e: Err, fx: Foreign): (r: string)
    requires Renderable(e)
    ensures e.ErrorString? ==> r == e.s
    ensures e.Opaque? ==> r == e.text
    ensures e.Stk? ==> r == StackError(e, fx)
    ensures e.Base? ==> r == BaseError(e, fx)
    decreases e, 2
  {
    match e
    case Stk(_, _) => StackError(e, fx)
    case ErrorString(s) => s
    case Base(_, _, _) => BaseError(e, fx)
    case Diags(d) => fx.diagsText(d)
    case Opaque(t) => t
  }

  /** `(*Stack).Error`: the stack's own formatter, `RichListFormatFunc` when it has none. */
  function StackError(e: Err, fx: Foreign): (r: string)
    requires e.Stk? && Renderable(e)
    ensures e.format.NilFormat? || e.format.RichListFormat? ==> r == RichList(e.errors, fx)
    ensures e.format.ListFormat? ==> r == List(e.errors, fx)
    ensures e.format.CustomFormat? ==> r == fx.custom(e.format.id, e.errors)
    decreases e, 1
  {
    match e.format
    case NilFormat => RichList(e.errors, fx)
    case RichListFormat => RichList(e.errors, fx)
    case ListFormat => List(e.errors, fx)
    case CustomFormat(id) => fx.custom(id, e.errors)
  }

  /** `(*base).Error`: the diagnostics when they hold an error, else the wrapped error, else "". */
  function BaseError(e: Err, fx: Foreign): (r: string)
    requires e.Base? && Renderable(e)
    ensures HasErrors(e.diags) && |e.files| == 0 ==> r == fx.diagsText(e.diags)
    ensures HasErrors(e.diags) && |e.files| > 0 ==> r == fx.writeDiags(e.files, e.diags)
    ensures !HasErrors(e.diags) && !e.err.Nil? ==> r == Message(e.err, fx)
    ensures !HasErrors(e.diags) && e.err.Nil? ==> r == ""
    decreases e, 1
  {
    if HasErrors(e.diags) then
      if |e.files| == 0 then fx.diagsText(e.diags) else fx.writeDiags(e.files, e.diags)
    else if !e.err.Nil? then Message(e.err, fx)
    else ""
  }

  /** A base whose diagnostics hold an error renders them and never reads `Err`, even when
      `Err` is a typed-nil `*Stack`, as `New(diags, (*Stack)(nil))` builds. */
  lemma DiagnosticsHideErr(fx: Foreign)
    ensures var d := [Diagnostic(DiagError, "s", "d")];
            Renderable(Base(NilStack, map[], d)) && Message(Base(NilStack, map[], d), fx) == fx.diagsText(d)
  {
    assert HasErrors([Diagnostic(DiagError, "s", "d")]) by {
      assert [Diagnostic(DiagError, "s", "d")][0].severity == DiagError;
    }
  }

  /** A stack with a caller's own formatter hands its list to that formatter as it is, nil
      entries included. */
  lemma CustomFormatSeesNils(id: nat, fx: Foreign)
    ensures Renderable(Stk([Nil, NilStack], CustomFormat(id)))
    ensures Message(Stk([Nil, NilStack], CustomFormat(id)), fx) == fx.custom(id, [Nil, NilStack])
  {
  }

  /** The closure `format` inside `RichListFormatFunc`: line 0, then each later line after "\n\t  ". */
  function IndentLines(text: string): string
  {
    var lines := Split(text, '\n');
    Join(lines, "\n\t  ")
  }

  /** `RichListFormatFunc`. */
  function RichList(es: seq<Err>, fx: Foreign): string
    requires AllRenderable(es)
    decreases es, 1
  {
    if |es| == 1 then "1 error occurred:\n\t* " + IndentLines(Message(es[0], fx)) + "\n\n"
    else Itoa(|es|) + " errors occurred:\n\t" + Join(RichPoints(es, fx), "\n\t") + "\n\n"
  }

  /** The bullet points `RichListFormatFunc` joins. */
  function RichPoints(es: seq<Err>, fx: Foreign): (r: seq<string>)
    requires AllRenderable(es)
    ensures |r| == |es|
    decreases es, 0
  {
    seq(|es|, i requires 0 <= i < |es| => "* " + IndentLines(Message(es[i], fx)))
  }

  /** `ListFormatFunc`. */
  function List(es: seq<Err>, fx: Foreign): string
    requires AllRenderable(es)
    decreases es, 1
  {
    if |es| == 1 then "1 error occurred:\n\t* " + Message(es[0], fx) + "\n\n"
    else Itoa(|es|) + " errors occurred:\n\t" + Join(ListPoints(es, fx), "\n\t") + "\n\n"
  }

  /** The bullet points `ListFormatFunc` joins. */
  function ListPoints(es: seq<Err>, fx: Foreign): (r: seq<string>)
    requires AllRenderable(es)
    ensures |r| == |es|
    decreases es, 0
  {
    seq(|es|, i requires 0 <= i < |es| => "* " + Message(es[i], fx))
  }
}
