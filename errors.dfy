/**
 * Turning SDK errors into Terraform diagnostics, and recognising the
 * "not found" error.
 */
module Errors {
  import opened Wrappers
  import opened Framework
  import opened Management
  import Text

  /** One detail line of a structured error: `fmt.Sprintf(" %s - %s", field, msg)`. */
  function FieldLine(field: string, msg: string): string {
    " " + field + " - " + msg
  }

  /** The detail lines of one field, in the order of its messages. */
  function FieldLines(field: string, msgs: seq<string>): seq<string> {
    seq(|msgs|, i requires 0 <= i < |msgs| => FieldLine(field, msgs[i]))
  }

  /**
   * The detail lines of the given fields, as a multiset: Go visits the
   * fields of a map in no fixed order, so only the lines, not their order,
   * are determined.
   */
  ghost function LinesOf(errors: map<string, seq<string>>, fields: set<string>): multiset<string>
    requires fields <= errors.Keys
    decreases fields
  {
    if fields == {} then multiset{}
    else
      var f :| f in fields;
      multiset(FieldLines(f, errors[f])) + LinesOf(errors, fields - {f})
  }

  /** The number of messages of the given fields. */
  ghost function MessageCount(errors: map<string, seq<string>>, fields: set<string>): nat
    requires fields <= errors.Keys
    decreases fields
  {
    if fields == {} then 0
    else
      var f :| f in fields;
      |errors[f]| + MessageCount(errors, fields - {f})
  }

  /** LinesOf does not depend on which field it takes first. */
  lemma {:induction false} LinesOfRemove(errors: map<string, seq<string>>, fields: set<string>, f: string)
    requires fields <= errors.Keys && f in fields
    ensures LinesOf(errors, fields) == multiset(FieldLines(f, errors[f])) + LinesOf(errors, fields - {f})
    decreases fields
  {
    var g :| g in fields && LinesOf(errors, fields) == multiset(FieldLines(g, errors[g])) + LinesOf(errors, fields - {g});
    if g != f {
      LinesOfRemove(errors, fields - {g}, f);
      LinesOfRemove(errors, fields - {f}, g);
      assert fields - {g} - {f} == fields - {f} - {g};
    }
  }

  /** MessageCount does not depend on which field it takes first. */
  lemma {:induction false} MessageCountRemove(errors: map<string, seq<string>>, fields: set<string>, f: string)
    requires fields <= errors.Keys && f in fields
    ensures MessageCount(errors, fields) == |errors[f]| + MessageCount(errors, fields - {f})
    decreases fields
  {
    var g :| g in fields && MessageCount(errors, fields) == |errors[g]| + MessageCount(errors, fields - {g});
    if g != f {
      MessageCountRemove(errors, fields - {g}, f);
      MessageCountRemove(errors, fields - {f}, g);
      assert fields - {g} - {f} == fields - {f} - {g};
    }
  }

  /** There is one detail line per field message. */
  lemma {:induction false} LineCountIsMessageCount(errors: map<string, seq<string>>, fields: set<string>)
    requires fields <= errors.Keys
    ensures |LinesOf(errors, fields)| == MessageCount(errors, fields)
    decreases fields
  {
    if fields != {} {
      var f :| f in fields;
      LinesOfRemove(errors, fields, f);
      MessageCountRemove(errors, fields, f);
      LineCountIsMessageCount(errors, fields - {f});
    }
  }

  /**
   * `processRemoteError`: exactly one error diagnostic, not attached to an
   * attribute. For the SDK's structured error the summary is its message and
   * the detail joins with "\n" one line " field - msg" per message of every
   * field, the fields in some order; for any other error summary and detail
   * are both its text.
   */
  method ProcessRemoteError(e: RemoteError) returns (diags: seq<Diagnostic>)
    ensures |diags| == 1 && diags[0].severity == Error && diags[0].attribute == None
    ensures e.OtherError? ==> diags[0].summary == e.text && diags[0].detail == e.text
    ensures e.ErrorMessage? ==> diags[0].summary == e.errorMessage
    ensures e.ErrorMessage? ==>
      exists lines: seq<string> :: multiset(lines) == LinesOf(e.errors, e.errors.Keys)
                                   && diags[0].detail == Text.Join(lines, "\n")
  {
    match e {
      case ErrorMessage(_, message, fieldErrors) =>
        var errors: seq<string> := [];
        var remaining := fieldErrors.Keys;
        while remaining != {}
          invariant remaining <= fieldErrors.Keys
          invariant multiset(errors) + LinesOf(fieldErrors, remaining) == LinesOf(fieldErrors, fieldErrors.Keys)
          decreases remaining
        {
          var fieldName :| fieldName in remaining;
          var messages := fieldErrors[fieldName];
          ghost var before := errors;
          for j := 0 to |messages|
            invariant errors == before + FieldLines(fieldName, messages[..j])
          {
            errors := errors + [FieldLine(fieldName, messages[j])];
          }
          assert messages[..|messages|] == messages;
          LinesOfRemove(fieldErrors, remaining, fieldName);
          remaining := remaining - {fieldName};
        }
        diags := [Diagnostic(Error, message, Text.Join(errors, "\n"), None)];
      case OtherError(text) =>
        diags := [Diagnostic(Error, text, text, None)];
    }
  }

  /** A detail line has no line break when its field name and message have none. */
  lemma FieldLineHasNoBreak(field: string, msg: string)
    requires '\n' !in field && '\n' !in msg
    ensures '\n' !in FieldLine(field, msg)
  {
  }

  /**
   * When no field name and no message contains a line break, a detail made of
   * `lines` (the lines of every message) has one text line per message: one
   * line break fewer than there are messages.
   */
  lemma DetailHasOneLinePerMessage(errors: map<string, seq<string>>, lines: seq<string>)
    requires multiset(lines) == LinesOf(errors, errors.Keys)
    requires forall f :: f in errors ==> '\n' !in f && forall i :: 0 <= i < |errors[f]| ==> '\n' !in errors[f][i]
    requires MessageCount(errors, errors.Keys) > 0
    ensures Text.CountChar(Text.Join(lines, "\n"), '\n') == MessageCount(errors, errors.Keys) - 1
  {
    LineCountIsMessageCount(errors, errors.Keys);
    assert |lines| == |multiset(lines)|;
    forall i | 0 <= i < |lines|
      ensures '\n' !in lines[i]
    {
      assert lines[i] in multiset(lines);
      LineIsFieldLine(errors, errors.Keys, lines[i]);
    }
    Text.JoinLineBreaks(lines);
  }

  /** Every line in LinesOf is the line of some field and one of its messages. */
  lemma {:induction false} LineIsFieldLine(errors: map<string, seq<string>>, fields: set<string>, line: string)
    requires fields <= errors.Keys
    requires line in LinesOf(errors, fields)
    requires forall f :: f in errors ==> '\n' !in f && forall i :: 0 <= i < |errors[f]| ==> '\n' !in errors[f][i]
    ensures '\n' !in line
    decreases fields
  {
    var f :| f in fields;
    LinesOfRemove(errors, fields, f);
    if line in multiset(FieldLines(f, errors[f])) {
      var i :| 0 <= i < |errors[f]| && FieldLines(f, errors[f])[i] == line;
      FieldLineHasNoBreak(f, errors[f][i]);
    } else {
      LineIsFieldLine(errors, fields - {f}, line);
    }
  }

  /**
   * `IsNotFoundError`: the error is the SDK's structured error with code 404.
   * No error (nil) and any other kind of error are not "not found".
   */
  predicate IsNotFoundError(e: Option<RemoteError>): (r: bool)
    ensures e.None? ==> !r
    ensures e.Some? && e.value.OtherError? ==> !r
    ensures r <==> e.Some? && e.value.ErrorMessage? && e.value.errorCode == 404
  {
    if e.None? then false
    else if e.value.ErrorMessage? then e.value.errorCode == 404
    else false
  }
}
