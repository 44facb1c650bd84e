/**
 * The exception raised when an entity fails validation: one line per
 * constraint violation, `Entity.path:message`, with class-level messages
 * marked.
 */
module Validation {
  /** The value `getTargets` returns for a constraint that applies to a whole class. */
  const ClassConstraint: string := "class"

  /** What a constraint's `getTargets` returns: one target, or a list of them. */
  datatype Targets = Target(name: string) | TargetList(names: seq<string>)

  /** A constraint violation: its constraint's targets, the property path and the message. */
  datatype Violation = Violation(targets: Targets, propertyPath: string, message: string)

  /** One collected error. */
  datatype ErrorEntry = ErrorEntry(path: string, message: string)

  /** The strict comparison `getTargets() === Constraint::CLASS_CONSTRAINT`. */
  predicate IsClassLevel(v: Violation)
  {
    v.targets == Target(ClassConstraint)
  }

  /** The error collected for one violation of entity `entityName`. */
  function ErrorOf(v: Violation, entityName: string): (e: ErrorEntry)
    ensures e.path == entityName + "." + v.propertyPath
    ensures IsClassLevel(v) ==> e.message == "CLASS: " + v.message
    ensures !IsClassLevel(v) ==> e.message == v.message
  {
    ErrorEntry(entityName + "." + v.propertyPath, if IsClassLevel(v) then "CLASS: " + v.message else v.message)
  }

  /** The errors collected for the violations `vs`, one per violation and in their order. */
  function ErrorsOf(vs: seq<Violation>, entityName: string): (es: seq<ErrorEntry>)
    ensures |es| == |vs|
    ensures forall i :: 0 <= i < |vs| ==> es[i] == ErrorOf(vs[i], entityName)
  {
    if vs == [] then [] else ErrorsOf(vs[..|vs| - 1], entityName) + [ErrorOf(vs[|vs| - 1], entityName)]
  }

  /** An error as one line of the message: `path:message`. */
  function Render(e: ErrorEntry): string
  {
    e.path + ":" + e.message
  }

  /** The lines of the errors `es`. */
  function RenderAll(es: seq<ErrorEntry>): (r: seq<string>)
    ensures |r| == |es| && forall i :: 0 <= i < |es| ==> r[i] == Render(es[i])
  {
    if es == [] then [] else RenderAll(es[..|es| - 1]) + [Render(es[|es| - 1])]
  }

  /** PHP's `implode("\n", $lines)`. */
  function Join(lines: seq<string>): string
  {
    if lines == [] then ""
    else if |lines| == 1 then lines[0]
    else Join(lines[..|lines| - 1]) + "\n" + lines[|lines| - 1]
  }

  /** PHP's `explode("\n", $s)`: the pieces of `s` between line breaks. */
  function Split(s: string): (r: seq<string>)
    ensures |r| > 0
  {
    if s == [] then [""]
    else
      var pieces := Split(s[..|s| - 1]);
      if s[|s| - 1] == '\n' then pieces + [""]
      else pieces[..|pieces| - 1] + [pieces[|pieces| - 1] + [s[|s| - 1]]]
  }

  /** The exception's message for the violations `vs` of entity `entityName`. */
  function Message(vs: seq<Violation>, entityName: string): string
  {
    Join(RenderAll(ErrorsOf(vs, entityName)))
  }

  /** The exception: its message is fixed by the constructor. */
  class EntityValidationException {
    const message: string

    /** Collects one error per violation, then joins them into the message. */
    constructor(messages: seq<Violation>, entityName: string)
      ensures message == Message(messages, entityName)
    {
      var errors := CollectErrors(messages, entityName);
      message := Join(RenderAll(errors));
    }
  }

  /** The collecting loop of the constructor. */
  method CollectErrors(messages: seq<Violation>, entityName: string) returns (errors: seq<ErrorEntry>)
    ensures errors == ErrorsOf(messages, entityName)
  {
    errors := [];
    var i := 0;
    while i < |messages|
      invariant 0 <= i <= |messages|
      invariant errors == ErrorsOf(messages[..i], entityName)
    {
      var validationError := messages[i];
      assert messages[..i + 1][..i] == messages[..i];
      if validationError.targets == Target(ClassConstraint) {
        errors := errors + [ErrorEntry(entityName + "." + validationError.propertyPath, "CLASS: " + validationError.message)];
      } else {
        errors := errors + [ErrorEntry(entityName + "." + validationError.propertyPath, validationError.message)];
      }
      i := i + 1;
    }
    assert messages[..i] == messages;
  }

  // ---------------------------------------------------------------- properties

  /** No violations give the empty message. */
  lemma NoViolationsEmptyMessage(entityName: string)
    ensures Message([], entityName) == ""
  {
  }

  /** A string without line breaks is one piece. */
  lemma {:induction false} SplitLine(p: string)
    requires '\n' !in p
    ensures Split(p) == [p]
    decreases |p|
  {
    if p != [] {
      assert p[..|p| - 1] + [p[|p| - 1]] == p;
      SplitLine(p[..|p| - 1]);
    }
  }

  /** A line break followed by a line without breaks adds that line as the last piece. */
  lemma {:induction false} SplitAppendLine(s: string, p: string)
    requires '\n' !in p
    ensures Split(s + "\n" + p) == Split(s) + [p]
    decreases |p|
  {
    if p == [] {
      assert (s + "\n" + p)[..|s|] == s;
    } else {
      var q := p[..|p| - 1];
      assert (s + "\n" + p)[..|s + "\n" + p| - 1] == s + "\n" + q;
      assert q + [p[|p| - 1]] == p;
      SplitAppendLine(s, q);
    }
  }

  /** Splitting a join of lines without line breaks gives the lines back. */
  lemma {:induction false} SplitJoin(lines: seq<string>)
    requires |lines| > 0 && forall i :: 0 <= i < |lines| ==> '\n' !in lines[i]
    ensures Split(Join(lines)) == lines
    decreases |lines|
  {
    if |lines| == 1 {
      SplitLine(lines[0]);
    } else {
      var prefix := lines[..|lines| - 1];
      SplitJoin(prefix);
      SplitAppendLine(Join(prefix), lines[|lines| - 1]);
      assert prefix + [lines[|lines| - 1]] == lines;
    }
  }

  /** The line of one violation, and that it has no line break when its parts have none. */
  lemma {:induction false} LineOf(v: Violation, entityName: string)
    ensures Render(ErrorOf(v, entityName))
      == entityName + "." + v.propertyPath + ":" + (if IsClassLevel(v) then "CLASS: " else "") + v.message
    ensures '\n' !in entityName && '\n' !in v.propertyPath && '\n' !in v.message ==> '\n' !in Render(ErrorOf(v, entityName))
  {
    var prefix := entityName + "." + v.propertyPath + ":";
    var tag := if IsClassLevel(v) then "CLASS: " else "";
    assert Render(ErrorOf(v, entityName)) == prefix + (tag + v.message);
    assert prefix + (tag + v.message) == prefix + tag + v.message;
    if '\n' !in entityName && '\n' !in v.propertyPath && '\n' !in v.message {
      assert '\n' !in tag;
      assert forall c :: c in prefix + (tag + v.message) ==> c in entityName || c in v.propertyPath || c in v.message || c in ".:" || c in tag;
    }
  }

  /**
   * When no path or message contains a line break, the message has exactly
   * one line per violation, in order, and line `i` is `Entity.path:message`
   * of violation `i`, with `CLASS: ` before the message of a class-level one.
   */
  lemma {:induction false} MessageLines(vs: seq<Violation>, entityName: string)
    requires |vs| > 0
    requires '\n' !in entityName
    requires forall i :: 0 <= i < |vs| ==> '\n' !in vs[i].propertyPath && '\n' !in vs[i].message
    ensures var lines := Split(Message(vs, entityName));
      |lines| == |vs| &&
      forall i :: 0 <= i < |vs| ==>
        lines[i] == entityName + "." + vs[i].propertyPath + ":" + (if IsClassLevel(vs[i]) then "CLASS: " else "") + vs[i].message
  {
    var lines := RenderAll(ErrorsOf(vs, entityName));
    forall i | 0 <= i < |vs|
      ensures '\n' !in lines[i]
      ensures lines[i] == entityName + "." + vs[i].propertyPath + ":" + (if IsClassLevel(vs[i]) then "CLASS: " else "") + vs[i].message
    {
      LineOf(vs[i], entityName);
    }
    SplitJoin(lines);
  }
}
