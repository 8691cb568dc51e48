/**
 * Validation-issue flattening (web/src/utils/http.ts).
 *
 * A schema validator reports each failed check as an issue carrying a
 * message, a code and the path of the offending field as a list of object
 * keys and array indices. `ToIssues` turns them into the flat form sent to
 * the client, with the path written as one dotted string ("items.0.qty").
 */
module Http {
  import opened Wrappers

  /** One step of a field path: an object key or an array index. */
  datatype PathSegment = Key(name: string) | Index(i: nat)

  /** An issue as the validator reports it. */
  datatype Issue = Issue(code: string, path: seq<PathSegment>, message: string)

  /** An issue as sent to the client. */
  datatype FlatIssue = FlatIssue(message: string, path: string, code: string)

  /**
   * What `toIssues` may be handed: `null`/`undefined`, or some value whose
   * `issues` property is present (a validation error) or not.
   */
  datatype ErrorValue = Nullish | Error(issues: Option<seq<Issue>>)

  /** What `toIssues` returns: its argument unchanged, or the flattened issues. */
  datatype IssuesResult = Unchanged(original: ErrorValue) | Flattened(flat: seq<FlatIssue>)

  function DigitChar(d: nat): char
    requires d < 10
  {
    "0123456789"[d]
  }

  /** The decimal text of an array index, as JavaScript prints an array index. */
  function DecimalText(n: nat): (s: string)
    ensures |s| > 0
    ensures forall k :: 0 <= k < |s| ==> '0' <= s[k] <= '9'
    ensures s[0] == '0' ==> n == 0 && s == "0"
  {
    if n < 10 then [DigitChar(n)] else DecimalText(n / 10) + [DigitChar(n % 10)]
  }

  /** The number a string of decimal digits denotes. */
  function DecimalValue(s: string): nat
    requires forall k :: 0 <= k < |s| ==> '0' <= s[k] <= '9'
  {
    if s == [] then 0
    else 10 * DecimalValue(s[..|s| - 1]) + (s[|s| - 1] - '0') as nat
  }

  /** Printing an index loses nothing: its text denotes the index again. */
  lemma {:induction false} DecimalRoundTrip(n: nat)
    ensures DecimalValue(DecimalText(n)) == n
  {
    var s := DecimalText(n);
    if n >= 10 {
      DecimalRoundTrip(n / 10);
      assert s[..|s| - 1] == DecimalText(n / 10);
    }
  }

  /** The text a segment contributes to the joined path. */
  function SegmentText(seg: PathSegment): string
  {
    match seg
    case Key(name) => name
    case Index(i) => DecimalText(i)
  }

  function SegmentTexts(path: seq<PathSegment>): (texts: seq<string>)
    ensures |texts| == |path|
    ensures forall k :: 0 <= k < |path| ==> texts[k] == SegmentText(path[k])
  {
    seq(|path|, k requires 0 <= k < |path| => SegmentText(path[k]))
  }

  /** `parts.join(".")`. */
  function JoinWithDots(parts: seq<string>): string
  {
    if |parts| == 0 then ""
    else if |parts| == 1 then parts[0]
    else parts[0] + "." + JoinWithDots(parts[1..])
  }

  /** A path written as one string: its segments' texts joined with dots. */
  function PathText(path: seq<PathSegment>): (s: string)
    ensures path == [] ==> s == ""
    ensures |path| == 1 ==> s == SegmentText(path[0])
  {
    JoinWithDots(SegmentTexts(path))
  }

  function Flatten(issue: Issue): (flat: FlatIssue)
  {
    FlatIssue(issue.message, PathText(issue.path), issue.code)
  }

  /**
   * `toIssues`: a value without issues comes back unchanged; otherwise each
   * issue, in order, becomes its flat form with the same message and code.
   */
  function ToIssues(error: ErrorValue): (r: IssuesResult)
    ensures r.Unchanged? <==> error.Nullish? || error.issues.None?
    ensures r.Unchanged? ==> r.original == error
    ensures r.Flattened? ==> |r.flat| == |error.issues.value|
    ensures r.Flattened? ==> forall k :: 0 <= k < |r.flat| ==>
              && r.flat[k].message == error.issues.value[k].message
              && r.flat[k].code == error.issues.value[k].code
              && r.flat[k].path == PathText(error.issues.value[k].path)
  {
    match error
    case Nullish => Unchanged(error)
    case Error(None) => Unchanged(error)
    case Error(Some(issues)) =>
      Flattened(seq(|issues|, k requires 0 <= k < |issues| => Flatten(issues[k])))
  }

  /** An error with an empty list of issues yields an empty list, not the error itself. */
  lemma ToIssuesEmpty()
    ensures ToIssues(Error(Some([]))) == Flattened([])
  {
  }

  /** `s.split(".")`: the pieces of `s` between dots; there is always at least one. */
  function SplitOnDots(s: string): (parts: seq<string>)
    ensures |parts| > 0
  {
    if s == [] then [""]
    else
      var rest := SplitOnDots(s[1..]);
      if s[0] == '.' then [""] + rest else [[s[0]] + rest[0]] + rest[1..]
  }

  /** A piece without dots splits into itself. */
  lemma {:induction false} SplitDotFree(t: string)
    requires forall k :: 0 <= k < |t| ==> t[k] != '.'
    ensures SplitOnDots(t) == [t]
  {
    if t != [] {
      SplitDotFree(t[1..]);
      assert t == [t[0]] + t[1..];
    }
  }

  /** Splitting `t.rest` with a dot-free `t` yields `t` and then the pieces of `rest`. */
  lemma {:induction false} SplitAfterPiece(t: string, rest: string)
    requires forall k :: 0 <= k < |t| ==> t[k] != '.'
    ensures SplitOnDots(t + "." + rest) == [t] + SplitOnDots(rest)
  {
    if t == [] {
      assert t + "." + rest == "." + rest;
      assert ("." + rest)[1..] == rest;
    } else {
      SplitAfterPiece(t[1..], rest);
      assert (t + "." + rest)[1..] == t[1..] + "." + rest;
      assert [t[0]] + t[1..] == t;
    }
  }

  /** Joining dot-free pieces with dots and splitting again gives the pieces back. */
  lemma {:induction false} SplitJoin(parts: seq<string>)
    requires |parts| > 0
    requires forall i, k :: 0 <= i < |parts| && 0 <= k < |parts[i]| ==> parts[i][k] != '.'
    ensures SplitOnDots(JoinWithDots(parts)) == parts
  {
    if |parts| == 1 {
      SplitDotFree(parts[0]);
    } else {
      SplitJoin(parts[1..]);
      SplitAfterPiece(parts[0], JoinWithDots(parts[1..]));
      assert parts == [parts[0]] + parts[1..];
    }
  }

  /**
   * For a non-empty path whose keys contain no dot, its segment texts can be
   * recovered from its dotted text: splitting on dots gives exactly them.
   */
  lemma PathTextSplits(path: seq<PathSegment>)
    requires |path| > 0
    requires forall k :: 0 <= k < |path| && path[k].Key? ==> '.' !in path[k].name
    ensures SplitOnDots(PathText(path)) == SegmentTexts(path)
  {
    var texts := SegmentTexts(path);
    forall i, k | 0 <= i < |texts| && 0 <= k < |texts[i]|
      ensures texts[i][k] != '.'
    {
      if path[i].Key? {
        assert texts[i][k] in path[i].name;
      }
    }
    SplitJoin(texts);
  }
}
