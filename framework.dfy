/** Option and Result, used for absent values and for error returns. */
module Wrappers {

  datatype Option<+T> = None | Some(value: T)

  datatype Result<+T, +E> = Success(value: T) | Failure(error: E)
}

/**
 * The value types of the Terraform plugin framework that the provider uses:
 * `types.String`, `types.Bool` and the diagnostics (`diag.Diagnostics`).
 */
module Framework {
  import opened Wrappers

  /** `types.String`: a string that may also be unknown or null in a plan. */
  datatype TfString = TfString(isUnknown: bool, isNull: bool, value: string)

  /** `types.Bool`: a boolean that may also be unknown or null in a plan. */
  datatype TfBool = TfBool(isUnknown: bool, isNull: bool, value: bool)

  /** `types.String{Value: v}`: the literal the provider writes into state. */
  function KnownString(v: string): TfString {
    TfString(false, false, v)
  }

  /** `types.Bool{Value: v}`. */
  function KnownBool(v: bool): TfBool {
    TfBool(false, false, v)
  }

  predicate IsKnownString(s: TfString) {
    !s.isUnknown && !s.isNull
  }

  predicate IsKnownBool(b: TfBool) {
    !b.isUnknown && !b.isNull
  }

  datatype Severity = Warning | Error

  /**
   * One diagnostic. `attribute` is the attribute path of an attribute
   * diagnostic (`AddAttributeWarning`), None for a plain one (`AddError`).
   */
  datatype Diagnostic = Diagnostic(severity: Severity, summary: string, detail: string, attribute: Option<string>)

  /** `diag.Diagnostics.HasError`. */
  predicate HasError(diags: seq<Diagnostic>) {
    exists i :: 0 <= i < |diags| && diags[i].severity == Error
  }
}

/** String helpers: `strings.Join` and substring and character counts. */
module Text {

  /** `strings.Join(lines, sep)`. */
  function Join(lines: seq<string>, sep: string): string
    decreases |lines|
  {
    if |lines| == 0 then ""
    else if |lines| == 1 then lines[0]
    else lines[0] + sep + Join(lines[1..], sep)
  }

  /** True when `sub` occurs somewhere in `s`. */
  predicate IsSubstring(sub: string, s: string)
    decreases |s|
  {
    |sub| <= |s| && (sub == s[..|sub|] || IsSubstring(sub, s[1..]))
  }

  lemma {:induction false} SubstringOfConcat(pre: string, sub: string, post: string)
    ensures IsSubstring(sub, pre + sub + post)
    decreases |pre|
  {
    if pre == [] {
      assert (pre + sub + post)[..|sub|] == sub;
    } else {
      assert (pre + sub + post)[1..] == pre[1..] + sub + post;
      SubstringOfConcat(pre[1..], sub, post);
    }
  }

  /** Both values interpolated into the message `a + x + b + y` occur in it. */
  lemma NamesBothValues(a: string, x: string, b: string, y: string)
    ensures IsSubstring(x, a + x + b + y) && IsSubstring(y, a + x + b + y)
  {
    SubstringOfConcat(a, x, b + y);
    assert a + x + (b + y) == a + x + b + y;
    SubstringOfConcat(a + x + b, y, []);
    assert a + x + b + y + [] == a + x + b + y;
  }

  /** Number of occurrences of `c` in `s`. */
  function CountChar(s: string, c: char): nat
    decreases |s|
  {
    if s == [] then 0 else (if s[0] == c then 1 else 0) + CountChar(s[1..], c)
  }

  lemma {:induction false} CountCharConcat(a: string, b: string, c: char)
    ensures CountChar(a + b, c) == CountChar(a, c) + CountChar(b, c)
    decreases |a|
  {
    if a == [] {
      assert a + b == b;
    } else {
      assert (a + b)[1..] == a[1..] + b;
      CountCharConcat(a[1..], b, c);
    }
  }

  lemma {:induction false} CountCharAbsent(s: string, c: char)
    requires c !in s
    ensures CountChar(s, c) == 0
    decreases |s|
  {
    if s != [] {
      assert s[0] != c;
      assert forall x :: x in s[1..] ==> x in s;
      CountCharAbsent(s[1..], c);
    }
  }

  /**
   * Joining lines that contain no '\n' with "\n" gives a text with exactly
   * one line per element: it has one line break fewer than elements.
   */
  lemma {:induction false} JoinLineBreaks(lines: seq<string>)
    requires |lines| > 0
    requires forall i :: 0 <= i < |lines| ==> '\n' !in lines[i]
    ensures CountChar(Join(lines, "\n"), '\n') == |lines| - 1
    decreases |lines|
  {
    CountCharAbsent(lines[0], '\n');
    if |lines| > 1 {
      JoinLineBreaks(lines[1..]);
      CountCharConcat(lines[0], "\n", '\n');
      CountCharConcat(lines[0] + "\n", Join(lines[1..], "\n"), '\n');
      assert CountChar("\n", '\n') == 1;
    }
  }
}
