/**
 * The error constructor `New` of errors/errors.go: its variadic arguments are folded left to
 * right into the fields of a fresh `base`, and nil comes back when nothing useful was given.
 */
module ErrorsNew {
  import opened ErrorValues
  import opened Outcomes

  /** One argument of `New`, by its dynamic type. */
  datatype Arg =
    | Str(s: string)           // a string
    | FilesArg(files: Files)   // a `map[string]*hcl.File`
    | ErrVal(e: Err)           // an error value (`ErrVal(Nil)` is the nil interface)
    | Other                    // a value of any other type

  /** The case of `New`'s type switch an argument lands in. The switch tests `string`, then
      `hcl.Diagnostics`, then the files map, then `error`, so a `Diagnostics` value, although it
      is an error, is taken as diagnostics; a nil interface matches no case. */
  datatype Case = StringCase | DiagnosticsCase | FilesCase | ErrorCase | DefaultCase

  function CaseOf(a: Arg): (c: Case)
    ensures a.ErrVal? && a.e.Diags? ==> c == DiagnosticsCase
    ensures c == DefaultCase <==> a.Other? || (a.ErrVal? && a.e.Nil?)
  {
    match a
    case Str(_) => StringCase
    case FilesArg(_) => FilesCase
    case ErrVal(e) =>
      if e.Diags? then DiagnosticsCase
      else if e.Nil? then DefaultCase
      else ErrorCase
    case Other => DefaultCase
  }

  /** An argument that sets the `Err` field: a string or a (non-diagnostics) error. */
  predicate SetsErr(a: Arg)
  {
    CaseOf(a) == StringCase || CaseOf(a) == ErrorCase
  }

  /** The value such an argument stores in `Err`: a string becomes an `*errorString`. */
  function ErrOf(a: Arg): Err
    requires SetsErr(a)
  {
    if a.Str? then ErrorString(a.s) else a.e
  }

  /** `Err` after the fold: the last string or error argument, nil if there is none. */
  function LastErr(args: seq<Arg>): Err
    decreases |args|
  {
    if |args| == 0 then Nil
    else if SetsErr(args[|args| - 1]) then ErrOf(args[|args| - 1])
    else LastErr(args[..|args| - 1])
  }

  /** `Diagnostics` after the fold: the last diagnostics argument, nil (empty) if there is none. */
  function LastDiags(args: seq<Arg>): seq<Diagnostic>
    decreases |args|
  {
    if |args| == 0 then []
    else if CaseOf(args[|args| - 1]) == DiagnosticsCase then args[|args| - 1].e.diags
    else LastDiags(args[..|args| - 1])
  }

  /** `Files` after the fold: the last files argument, nil (empty) if there is none. */
  function LastFiles(args: seq<Arg>): Files
    decreases |args|
  {
    if |args| == 0 then map[]
    else if CaseOf(args[|args| - 1]) == FilesCase then args[|args| - 1].files
    else LastFiles(args[..|args| - 1])
  }

  /** Some argument lands in the `default` case, which panics. */
  predicate Panics(args: seq<Arg>)
  {
    exists i :: 0 <= i < |args| && CaseOf(args[i]) == DefaultCase
  }

  /** What a completed fold returns: nil when there is neither a diagnostic nor an error. */
  function Built(args: seq<Arg>): Err
  {
    var err, diags := LastErr(args), LastDiags(args);
    if |diags| == 0 && err.Nil? then Nil else Base(err, LastFiles(args), diags)
  }

  /** `New(args...)`, as the loop the source runs over the fields of a fresh `base`. */
  method New(args: seq<Arg>) returns (r: Outcome<Err>)
    ensures |args| == 0 ==> r == Ok(Nil)
    ensures |args| > 0 && Panics(args) ==> r == Panic
    ensures |args| > 0 && !Panics(args) ==> r == Ok(Built(args))
    ensures r.Ok? && !r.value.Nil? ==> r.value.Base? && (|r.value.diags| > 0 || !r.value.err.Nil?)
  {
    if |args| == 0 {
      return Ok(Nil);
    }
    var err: Err := Nil;
    var files: Files := map[];
    var diags: seq<Diagnostic> := [];
    var i := 0;
    while i < |args|
      invariant 0 <= i <= |args|
      invariant !Panics(args[..i])
      invariant err == LastErr(args[..i])
      invariant diags == LastDiags(args[..i])
      invariant files == LastFiles(args[..i])
    {
      var arg := args[i];
      assert args[..i + 1][..i] == args[..i];
      match arg {
        case Str(s) =>
          err := ErrorString(s);
        case FilesArg(f) =>
          files := f;
        case ErrVal(e) =>
          if e.Diags? {
            diags := e.diags;
          } else if e.Nil? {
            assert CaseOf(args[i]) == DefaultCase;
            return Panic;
          } else {
            err := e;
          }
        case Other =>
          assert CaseOf(args[i]) == DefaultCase;
          return Panic;
      }
      i := i + 1;
    }
    assert args[..i] == args;
    if |diags| == 0 && err.Nil? {
      return Ok(Nil);
    }
    return Ok(Base(err, files, diags));
  }

  /** The last argument that sets `Err` wins: every later argument is a diagnostics or files value. */
  lemma {:induction false} LastErrWins(args: seq<Arg>, j: nat)
    requires j < |args| && SetsErr(args[j])
    requires forall k :: j < k < |args| ==> !SetsErr(args[k])
    ensures LastErr(args) == ErrOf(args[j])
    decreases |args|
  {
    if j < |args| - 1 {
      var init := args[..|args| - 1];
      assert init[j] == args[j];
      LastErrWins(init, j);
    }
  }

  /** Without a string or error argument, `Err` stays nil, whatever diagnostics are given. */
  lemma {:induction false} NoErrArgument(args: seq<Arg>)
    requires forall k :: 0 <= k < |args| ==> !SetsErr(args[k])
    ensures LastErr(args).Nil?
    decreases |args|
  {
    if |args| > 0 {
      NoErrArgument(args[..|args| - 1]);
    }
  }

  /** Likewise the last diagnostics argument wins. */
  lemma {:induction false} LastDiagsWins(args: seq<Arg>, j: nat)
    requires j < |args| && CaseOf(args[j]) == DiagnosticsCase
    requires forall k :: j < k < |args| ==> CaseOf(args[k]) != DiagnosticsCase
    ensures LastDiags(args) == args[j].e.diags
    decreases |args|
  {
    if j < |args| - 1 {
      var init := args[..|args| - 1];
      assert init[j] == args[j];
      LastDiagsWins(init, j);
    }
  }

  /** `New(files)` alone, or any mix of files and empty diagnostics, yields nil. */
  lemma FilesAloneAreNil(args: seq<Arg>)
    requires forall k :: 0 <= k < |args| ==> args[k].FilesArg? || args[k] == ErrVal(Diags([]))
    ensures !Panics(args) && Built(args) == Nil
  {
    NoErrArgument(args);
    DiagsEmpty(args);
  }

  lemma {:induction false} DiagsEmpty(args: seq<Arg>)
    requires forall k :: 0 <= k < |args| ==> args[k].FilesArg? || args[k] == ErrVal(Diags([]))
    ensures LastDiags(args) == []
    decreases |args|
  {
    if |args| > 0 {
      DiagsEmpty(args[..|args| - 1]);
    }
  }

  /** When the last string argument is `s` and the diagnostics hold no error, the result's
      `Error()` is exactly `s`. */
  lemma LastStringIsMessage(args: seq<Arg>, j: nat, s: string, fx: Foreign)
    requires j < |args| && args[j] == Str(s)
    requires forall k :: j < k < |args| ==> !SetsErr(args[k])
    requires !HasErrors(LastDiags(args))
    ensures Built(args) == Base(ErrorString(s), LastFiles(args), LastDiags(args))
    ensures Renderable(Built(args)) && Message(Built(args), fx) == s
  {
    LastErrWins(args, j);
  }

  /** A non-nil result whose fold leaves `Err` nil and no error-severity diagnostic (only
      warnings or invalid ones) renders as the empty string. */
  lemma WarningsOnlyRenderEmpty(args: seq<Arg>, fx: Foreign)
    requires !Panics(args) && Built(args) != Nil
    requires LastErr(args).Nil? && !HasErrors(LastDiags(args))
    ensures Built(args) == Base(Nil, LastFiles(args), LastDiags(args)) && |LastDiags(args)| > 0
    ensures Renderable(Built(args)) && Message(Built(args), fx) == ""
  {
  }
}
