/**
 * The multi-error accumulator of errors/multierror.go: `Append`, `ErrorOrNil`,
 * `WrappedErrors` and the two list formatters.
 *
 * A `*Stack` is the value `Stk(errors, format)` (or `NilStack` for a typed nil pointer).
 */
module MultiError {
  import opened Text
  import opened ErrorValues

  /** What one argument of `Append` adds to the stack: a nested stack's errors, nothing for a
      nil, and the error itself otherwise. */
  function Contribution(e: Err): seq<Err>
  {
    match e
    case Nil => []
    case NilStack => []
    case Stk(es, _) => es
    case _ => [e]
  }

  /** Everything that `Append(s, errs...)` adds after the errors already in `s`, in order. */
  function Flatten(errs: seq<Err>): seq<Err>
    decreases |errs|
  {
    if |errs| == 0 then [] else Flatten(errs[..|errs| - 1]) + Contribution(errs[|errs| - 1])
  }

  /** `Append(err, errs...)`. The result is always a non-nil `*Stack`. */
  method Append(err: Err, errs: seq<Err>) returns (r: Err)
    ensures r.Stk?
    ensures err.Stk? ==> r == Stk(err.errors + Flatten(errs), err.format)
    ensures err.NilStack? ==> r == Stk(Flatten(errs), NilFormat)
    ensures !err.Stk? && !err.NilStack? ==>
              r == Stk(Flatten(if err.Nil? then errs else [err] + errs), NilFormat)
    decreases if err.Stk? || err.NilStack? then 0 else 1
  {
    if err.Stk? || err.NilStack? {
      // typed nils can reach here: start from a fresh, empty stack
      var stack := if err.NilStack? then Stk([], NilFormat) else err;
      ghost var start := stack.errors;
      var i := 0;
      while i < |errs|
        invariant 0 <= i <= |errs|
        invariant stack.Stk? && stack.errors == start + Flatten(errs[..i])
        invariant stack.format == (if err.NilStack? then NilFormat else err.format)
      {
        var e := errs[i];
        match e {
          case Stk(es, _) =>
            stack := stack.(errors := stack.errors + es);
          case NilStack =>
          case Nil =>
          case _ =>
            stack := stack.(errors := stack.errors + [e]);
        }
        assert errs[..i + 1][..i] == errs[..i];
        i := i + 1;
      }
      assert errs[..i] == errs;
      r := stack;
    } else {
      var newErrs: seq<Err> := [];
      if !err.Nil? {
        newErrs := newErrs + [err];
      }
      newErrs := newErrs + errs;
      assert newErrs == if err.Nil? then errs else [err] + errs;
      r := Append(Stk([], NilFormat), newErrs);
      assert [] + Flatten(newErrs) == Flatten(newErrs);
    }
  }

  /** `(*Stack).ErrorOrNil`: nil for a nil stack or one holding no errors, the stack itself otherwise. */
  function ErrorOrNil(s: Err): (r: Err)
    requires s.Stk? || s.NilStack?
    ensures r.Nil? <==> s.NilStack? || |s.errors| == 0
    ensures !r.Nil? ==> r == s
  {
    if s.NilStack? then Nil
    else if |s.errors| == 0 then Nil
    else s
  }

  /** `(*Stack).WrappedErrors`: the wrapped list, unchanged. A nil receiver dereferences nil. */
  function WrappedErrors(s: Err): (r: seq<Err>)
    requires s.Stk?
    ensures r == s.errors
  {
    s.errors
  }

  /** How many errors one argument of `Append` adds. */
  function Weight(e: Err): nat
  {
    match e
    case Nil => 0
    case NilStack => 0
    case Stk(es, _) => |es|
    case _ => 1
  }

  function TotalWeight(errs: seq<Err>): nat
    decreases |errs|
  {
    if |errs| == 0 then 0 else Weight(errs[0]) + TotalWeight(errs[1..])
  }

  /** Appending adds one error per non-nil plain error and the whole list of each non-nil stack. */
  lemma {:induction false} FlattenLength(errs: seq<Err>)
    ensures |Flatten(errs)| == TotalWeight(errs)
    decreases |errs|
  {
    if |errs| > 0 {
      FlattenConcat([errs[0]], errs[1..]);
      assert [errs[0]] + errs[1..] == errs;
      FlattenLength(errs[1..]);
      assert Flatten([errs[0]]) == Flatten([]) + Contribution(errs[0]);
    }
  }

  /** Flattening distributes over concatenation of the arguments. */
  lemma {:induction false} FlattenConcat(a: seq<Err>, b: seq<Err>)
    ensures Flatten(a + b) == Flatten(a) + Flatten(b)
    decreases |b|
  {
    if |b| == 0 {
      assert a + b == a;
    } else {
      var init, last := b[..|b| - 1], b[|b| - 1];
      var ab := a + b;
      assert ab[..|ab| - 1] == a + init;
      assert ab[|ab| - 1] == last;
      assert Flatten(ab) == Flatten(a + init) + Contribution(last);
      FlattenConcat(a, init);
      assert Flatten(b) == Flatten(init) + Contribution(last);
    }
  }

  /** Two appends in a row add what one append of both argument lists adds. */
  lemma AppendInTwoSteps(s: seq<Err>, a: seq<Err>, b: seq<Err>)
    ensures (s + Flatten(a)) + Flatten(b) == s + Flatten(a + b)
  {
    FlattenConcat(a, b);
  }

  /** Flattening goes exactly one level down: an error is added exactly when it is a non-nil
      plain argument or sits directly in the list of a stack argument. */
  lemma {:induction false} FlattenMembers(errs: seq<Err>, x: Err)
    ensures x in Flatten(errs) <==>
              exists i :: 0 <= i < |errs| && x in Contribution(errs[i])
    decreases |errs|
  {
    if |errs| > 0 {
      var init := errs[..|errs| - 1];
      FlattenMembers(init, x);
      if x in Flatten(errs) {
        if x in Flatten(init) {
          var i :| 0 <= i < |init| && x in Contribution(init[i]);
          assert errs[i] == init[i];
        }
      } else {
        forall i | 0 <= i < |errs| ensures x !in Contribution(errs[i]) {
          if i < |init| {
            assert errs[i] == init[i];
          }
        }
      }
    }
  }

  /** A nested stack inside a stack argument stays nested: it is not flattened further. */
  lemma NestedStackStaysNested(inner: seq<Err>, f: Format, g: Format)
    ensures Flatten([Stk([Stk(inner, f)], g)]) == [Stk(inner, f)]
  {
    assert [Stk([Stk(inner, f)], g)][..0] == [];
  }

  /** A stack that `Append` builds holds no nil error when each argument is nil or renderable and
      each stack argument's own list is renderable: `Append` adds no nil argument itself, but copies
      a stack argument's list as it is, whatever that stack's format. */
  lemma {:induction false} FlattenRenderable(errs: seq<Err>)
    requires forall i :: 0 <= i < |errs| ==>
               errs[i].Nil? || errs[i].NilStack? || (Renderable(errs[i]) && (errs[i].Stk? ==> AllRenderable(errs[i].errors)))
    ensures AllRenderable(Flatten(errs))
    decreases |errs|
  {
    if |errs| > 0 {
      FlattenRenderable(errs[..|errs| - 1]);
    }
  }

  /** `ErrorOrNil` of a stack freshly built by `Append` is nil exactly when no argument added anything. */
  lemma {:induction false} ErrorOrNilAfterAppend(errs: seq<Err>)
    ensures ErrorOrNil(Stk(Flatten(errs), NilFormat)).Nil? <==>
              forall i :: 0 <= i < |errs| ==> Weight(errs[i]) == 0
  {
    FlattenLength(errs);
    TotalWeightZero(errs);
  }

  lemma {:induction false} TotalWeightZero(errs: seq<Err>)
    ensures TotalWeight(errs) == 0 <==> forall i :: 0 <= i < |errs| ==> Weight(errs[i]) == 0
    decreases |errs|
  {
    if |errs| > 0 {
      TotalWeightZero(errs[1..]);
      assert forall i :: 1 <= i < |errs| ==> errs[i] == errs[1..][i - 1];
    }
  }

  /** The closure `format` of `RichListFormatFunc`, as the loop the source runs. `strings.Split`
      never returns an empty slice, so its `case 0` branch is never taken. */
  method FormatText(text: string) returns (s: string)
    ensures s == IndentLines(text)
    ensures s == ReplaceNewlines(text)
  {
    var lines := Split(text, '\n');
    s := "";
    s := s + lines[0];
    var i := 1;
    while i < |lines|
      invariant 1 <= i <= |lines|
      invariant s == Join(lines[..i], "\n\t  ")
    {
      JoinSnoc(lines[..i], lines[i], "\n\t  ");
      assert lines[..i + 1] == lines[..i] + [lines[i]];
      s := s + "\n\t  " + lines[i];
      i := i + 1;
    }
    assert lines[..i] == lines;
    IndentLinesReplaces(text);
  }

  /** Each newline of `text` replaced by a newline, a tab and two spaces. */
  function ReplaceNewlines(text: string): string
    decreases |text|
  {
    if |text| == 0 then ""
    else (if text[0] == '\n' then "\n\t  " else [text[0]]) + ReplaceNewlines(text[1..])
  }

  lemma {:induction false} JoinSnoc(parts: seq<string>, p: string, sep: string)
    requires |parts| >= 1
    ensures Join(parts + [p], sep) == Join(parts, sep) + sep + p
    decreases |parts|
  {
    if |parts| > 1 {
      assert (parts + [p])[1..] == parts[1..] + [p];
      JoinSnoc(parts[1..], p, sep);
    }
  }

  /** Indenting the continuation lines is the same as rewriting every newline. */
  lemma {:induction false} IndentLinesReplaces(text: string)
    ensures IndentLines(text) == ReplaceNewlines(text)
    decreases |text|
  {
    if |text| > 0 {
      var rest := Split(text[1..], '\n');
      IndentLinesReplaces(text[1..]);
      if text[0] == '\n' {
        assert ([""] + rest)[1..] == rest;
      } else {
        JoinPrefixFirst([text[0]], rest, "\n\t  ");
      }
    }
  }

  /** A message without a newline goes through `RichListFormatFunc`'s `format` unchanged. */
  lemma IndentLinesSingleLine(text: string)
    requires '\n' !in text
    ensures IndentLines(text) == text
  {
    SplitWithoutSeparator(text, '\n');
  }

  /** `RichListFormatFunc`, as the loop the source runs. */
  method RichListFormatFunc(es: seq<Err>, fx: Foreign) returns (s: string)
    requires AllRenderable(es)
    ensures s == RichList(es, fx)
  {
    if |es| == 1 {
      var t := FormatText(Message(es[0], fx));
      return "1 error occurred:\n\t* " + t + "\n\n";
    }
    var points := new string[|es|];
    var i := 0;
    while i < |es|
      invariant 0 <= i <= |es|
      invariant forall k :: 0 <= k < i ==> points[k] == RichPoints(es, fx)[k]
    {
      var t := FormatText(Message(es[i], fx));
      points[i] := "* " + t;
      i := i + 1;
    }
    assert points[..] == RichPoints(es, fx);
    s := Itoa(|es|) + " errors occurred:\n\t" + Join(points[..], "\n\t") + "\n\n";
  }

  /** `ListFormatFunc`, as the loop the source runs. */
  method ListFormatFunc(es: seq<Err>, fx: Foreign) returns (s: string)
    requires AllRenderable(es)
    ensures s == List(es, fx)
  {
    if |es| == 1 {
      return "1 error occurred:\n\t* " + Message(es[0], fx) + "\n\n";
    }
    var points := new string[|es|];
    var i := 0;
    while i < |es|
      invariant 0 <= i <= |es|
      invariant forall k :: 0 <= k < i ==> points[k] == ListPoints(es, fx)[k]
    {
      points[i] := "* " + Message(es[i], fx);
      i := i + 1;
    }
    assert points[..] == ListPoints(es, fx);
    s := Itoa(|es|) + " errors occurred:\n\t" + Join(points[..], "\n\t") + "\n\n";
  }

  /** When no message spans several lines the two formatters agree. */
  lemma RichListIsListForSingleLines(es: seq<Err>, fx: Foreign)
    requires AllRenderable(es)
    requires forall i :: 0 <= i < |es| ==> '\n' !in Message(es[i], fx)
    ensures RichList(es, fx) == List(es, fx)
  {
    forall i | 0 <= i < |es| ensures IndentLines(Message(es[i], fx)) == Message(es[i], fx) {
      IndentLinesSingleLine(Message(es[i], fx));
    }
    assert RichPoints(es, fx) == ListPoints(es, fx);
  }

  /** A multi-line message keeps its first line and indents each later one under the bullet. */
  lemma RichListIndentsContinuations(m: string, fx: Foreign)
    ensures RichList([Opaque(m)], fx) == "1 error occurred:\n\t* " + ReplaceNewlines(m) + "\n\n"
  {
    IndentLinesReplaces(m);
  }

  /** The count printed in the header of a list of several errors reads back as that count. */
  lemma HeaderCount(es: seq<Err>, fx: Foreign)
    requires AllRenderable(es) && |es| != 1
    ensures var n := Itoa(|es|);
            RichList(es, fx)[..|n|] == n && IsDigits(n) && Atoi(n) == |es| &&
            RichList(es, fx)[|n|..|n| + 17] == " errors occurred:"
  {
    AtoiItoa(|es|);
    var n := Itoa(|es|);
    var tail := " errors occurred:\n\t" + Join(RichPoints(es, fx), "\n\t") + "\n\n";
    assert RichList(es, fx) == n + tail;
    assert tail[..17] == " errors occurred:";
    assert (n + tail)[..|n|] == n;
    assert (n + tail)[|n|..|n| + 17] == tail[..17];
  }
}
