/** `issuesToString`: the one-line rendering of a list of validation issues
    used as the message of `invalid_request_body`. */
module Utils {

  /** A validation issue: the path of the offending field and a message. */
  datatype Issue = Issue(path: seq<string>, message: string)

  /** `Array.prototype.join`: the parts separated by `sep`. */
  function Join(parts: seq<string>, sep: string): string
  {
    if |parts| == 0 then ""
    else if |parts| == 1 then parts[0]
    else Join(parts[..|parts| - 1], sep) + sep + parts[|parts| - 1]
  }

  /** The template `${path}: ${message}`; an array path is converted to text
      by joining its elements with commas. */
  function Describe(issue: Issue): string
  {
    Join(issue.path, ",") + ": " + issue.message
  }

  /** The reducer: the element at index 0 starts the text (the initial
      accumulator is ignored), every later one is appended after ", ". */
  function Step(cum: string, cur: Issue, i: nat): string
  {
    if i == 0 then Describe(cur) else cum + ", " + Describe(cur)
  }

  /** `issues.reduce(step, cum)` continued from index `i`. */
  function Reduce(issues: seq<Issue>, i: nat, cum: string): string
    requires i <= |issues|
    decreases |issues| - i
  {
    if i == |issues| then cum else Reduce(issues, i + 1, Step(cum, issues[i], i))
  }

  function IssuesToString(issues: seq<Issue>): (r: string)
    ensures issues == [] ==> r == ""
    ensures |issues| == 1 ==> r == Describe(issues[0])
  {
    assert |issues| == 1 ==> Reduce(issues, 1, Step("", issues[0], 0)) == Describe(issues[0]);
    Reduce(issues, 0, "")
  }

  lemma {:induction false} ReduceSnoc(issues: seq<Issue>, x: Issue, i: nat, cum: string)
    requires i <= |issues|
    ensures Reduce(issues + [x], i, cum) == Step(Reduce(issues, i, cum), x, |issues|)
    decreases |issues| - i
  {
    if i < |issues| {
      assert (issues + [x])[i] == issues[i];
      ReduceSnoc(issues, x, i + 1, Step(cum, issues[i], i));
    }
  }

  /** Appending an issue to a non-empty list appends ", path: message". */
  lemma IssuesToStringAppend(issues: seq<Issue>, x: Issue)
    requires issues != []
    ensures IssuesToString(issues + [x]) == IssuesToString(issues) + ", " + Describe(x)
  {
    ReduceSnoc(issues, x, 0, "");
  }

  /** The output is the issues' descriptions joined by ", " (a reference
      definition independent of the reducer). */
  lemma {:induction false} IssuesToStringIsJoin(issues: seq<Issue>)
    ensures IssuesToString(issues) == Join(seq(|issues|, i requires 0 <= i < |issues| => Describe(issues[i])), ", ")
  {
    var parts := seq(|issues|, i requires 0 <= i < |issues| => Describe(issues[i]));
    if |issues| > 1 {
      var init := issues[..|issues| - 1];
      IssuesToStringIsJoin(init);
      ReduceSnoc(init, issues[|issues| - 1], 0, "");
      assert init + [issues[|issues| - 1]] == issues;
      assert parts[..|parts| - 1] == seq(|init|, i requires 0 <= i < |init| => Describe(init[i]));
    }
  }

  /** The output always starts with the first issue's "path: message". */
  lemma {:induction false} IssuesToStringStartsWithFirst(issues: seq<Issue>)
    requires issues != []
    ensures Describe(issues[0]) <= IssuesToString(issues)
  {
    if |issues| > 1 {
      var init := issues[..|issues| - 1];
      IssuesToStringStartsWithFirst(init);
      IssuesToStringAppend(init, issues[|issues| - 1]);
      assert init + [issues[|issues| - 1]] == issues;
    }
  }
}
