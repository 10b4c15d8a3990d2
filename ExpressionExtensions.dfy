/** Include-path selectors (`x => x.Policies`, `x => x.Policies.Select(p => p.PolicyVersions)`)
    as expression trees, the dotted path string a selector stands for, and the two comparisons
    the repositories use to recognise a requested include path. */
module ExpressionExtensions {
  import opened Common

  /** The node kinds of an expression tree that matter to path extraction. */
  datatype Expr =
    | Lambda(body: Expr)                        // x => body
    | Call(arguments: seq<Expr>)                // a method call, e.g. Enumerable.Select(source, selector)
    | MemberAccess(owner: Expr, name: string)   // owner.name
    | Parameter(name: string)                   // the lambda parameter x itself
    | Other                                     // any other node kind: constants, conversions, ...
    | Null                                      // a null reference

  /** C# string concatenation reads a null string as "". */
  function NullToEmpty(s: Option<string>): string {
    if s.None? then "" else s.value
  }

  /** The include path a selector stands for. A lambda stands for its body; a call with exactly
      two arguments joins its arguments' paths with a dot; a member access stands for the
      member's own name, whatever it is accessed on; a null expression has a null path; any
      other shape is rejected with an ArgumentException. */
  function GetPathString(e: Expr): (r: Result<Option<string>>)
    ensures r.Failure? ==> r.error == ArgumentException
    ensures r == Success(None) ==> e.Null? || e.Lambda?
    ensures e.Call? && r.Success? ==> r.value.Some? && '.' in r.value.value
  {
    match e
    case Null => Success(None)
    case Lambda(body) => GetPathString(body)
    case Call(arguments) =>
      if |arguments| != 2 then Failure(ArgumentException)
      else
        var first :- GetPathString(arguments[0]);
        var second :- GetPathString(arguments[1]);
        var joined := NullToEmpty(first) + "." + NullToEmpty(second);
        assert joined[|NullToEmpty(first)|] == '.';
        Success(Some(joined))
    case MemberAccess(_, name) => Success(Some(name))
    case Parameter(_) => Failure(ArgumentException)
    case Other => Failure(ArgumentException)
  }

  /** `value.PathEquals(path)`: false for a null path; true when both are the same instance,
      without looking at either; otherwise whether the two path strings are equal.
      `sameInstance` stands for ReferenceEquals(value, path). */
  function PathEquals(value: Expr, path: Expr, sameInstance: bool): (r: Result<bool>)
    requires sameInstance ==> value == path
    ensures path.Null? ==> r == Success(false)
    ensures !path.Null? && sameInstance ==> r == Success(true)
    ensures r.Failure? ==> r.error == ArgumentException
    ensures r.Success? && !path.Null? && !sameInstance ==> (r.value <==> GetPathString(value) == GetPathString(path))
  {
    if path.Null? then Success(false)
    else if sameInstance then Success(true)
    else
      var valueAsString :- GetPathString(value);
      var pathAsString :- GetPathString(path);
      Success(valueAsString == pathAsString)
  }

  /** `value.StartsWith(path)`: false for a null path; true for the same instance or equal path
      strings; otherwise whether the value's path begins with the path's string followed by a
      dot, so that a path matches whole segments only. Asking a null value path whether it
      starts with something raises a NullReferenceException. */
  function StartsWith(value: Expr, path: Expr, sameInstance: bool): (r: Result<bool>)
    requires sameInstance ==> value == path
    ensures path.Null? ==> r == Success(false)
    ensures !path.Null? && sameInstance ==> r == Success(true)
    ensures r.Failure? ==> r.error == ArgumentException || r.error == NullReferenceException
    ensures r == Failure(NullReferenceException) <==>
              !path.Null? && GetPathString(value) == Success(None) && GetPathString(path).Success? && GetPathString(path).value.Some?
    ensures !path.Null? && GetPathString(value).Success? && GetPathString(value) == GetPathString(path) ==> r == Success(true)
  {
    if path.Null? then Success(false)
    else if sameInstance then Success(true)
    else
      var valueAsString :- GetPathString(value);
      var pathAsString :- GetPathString(path);
      if valueAsString == pathAsString then Success(true)
      else if valueAsString.None? then Failure(NullReferenceException)
      else Success(NullToEmpty(pathAsString) + "." <= valueAsString.value)
  }

  /** `includePaths.Where(p => p != null)` */
  function NonNull(paths: seq<Expr>): (r: seq<Expr>)
    ensures forall e :: e in r <==> e in paths && !e.Null?
    ensures |r| <= |paths|
  {
    if paths == [] then []
    else (if paths[0].Null? then [] else [paths[0]]) + NonNull(paths[1..])
  }

  // ---------------------------------------------------------------------------------------
  // Selectors written the way callers write them, and what path extraction makes of them.

  /** Member names as they appear in a path: no dots. */
  predicate IsSegment(s: string) {
    '.' !in s
  }

  predicate AreSegments(segments: seq<string>) {
    |segments| >= 1 && forall i :: 0 <= i < |segments| ==> IsSegment(segments[i])
  }

  /** The dotted path of a sequence of member names. */
  function Dotted(segments: seq<string>): string
    requires |segments| >= 1
  {
    if |segments| == 1 then segments[0] else segments[0] + "." + Dotted(segments[1..])
  }

  /** The body of `x => x.S0.Select(y => y.S1.Select(...))` for segments S0, S1, ... */
  function Navigation(segments: seq<string>): Expr
    requires |segments| >= 1
  {
    if |segments| == 1 then MemberAccess(Parameter("x"), segments[0])
    else Call([MemberAccess(Parameter("x"), segments[0]), Lambda(Navigation(segments[1..]))])
  }

  /** The selector lambda a caller writes to request the include path `Dotted(segments)`. */
  function SelectorFor(segments: seq<string>): Expr
    requires |segments| >= 1
  {
    Lambda(Navigation(segments))
  }

  /** Path extraction reads back exactly the dotted path a selector was written for. */
  lemma {:induction false} SelectorPath(segments: seq<string>)
    requires |segments| >= 1
    ensures GetPathString(SelectorFor(segments)) == Success(Some(Dotted(segments)))
  {
    var head := MemberAccess(Parameter("x"), segments[0]);
    assert GetPathString(head) == Success(Some(segments[0]));
    if |segments| > 1 {
      var tail := Lambda(Navigation(segments[1..]));
      SelectorPath(segments[1..]);
      assert GetPathString(tail) == Success(Some(Dotted(segments[1..])));
      assert Navigation(segments) == Call([head, tail]);
    }
  }

  /** A member access yields only the member's own name: `x => x.A.B` has the path "B". */
  lemma MemberAccessIgnoresOwner(owner: Expr, name: string)
    ensures GetPathString(Lambda(MemberAccess(owner, name))) == Success(Some(name))
    ensures PathEquals(Lambda(MemberAccess(owner, name)), SelectorFor([name]), false) == Success(true)
  {
    SelectorPath([name]);
  }

  /** Splitting at the first dot: two dotted strings whose heads contain no dot are in the
      prefix relation exactly when their heads agree and their tails are in the prefix relation. */
  lemma {:induction false} FirstDotPrefix(x: string, s: string, y: string, t: string)
    requires IsSegment(x) && IsSegment(y)
    ensures x + "." + s <= y + "." + t <==> x == y && s <= t
  {
    var l, r := x + "." + s, y + "." + t;
    if |x| < |y| {
      assert l[|x|] == '.' && r[|x|] == y[|x|];
      assert y[|x|] in y;
    } else if |x| > |y| {
      assert r[|y|] == '.' && l[|y|] == x[|y|];
      assert x[|y|] in x;
    } else if x == y {
      if s <= t {
        assert l == (x + ".") + s && r == (x + ".") + t;
      }
      if l <= r {
        assert l == (x + ".") + s && r == (x + ".") + t;
        assert forall i :: 0 <= i < |s| ==> s[i] == l[|x| + 1 + i] == r[|x| + 1 + i] == t[i];
      }
    } else {
      var i :| 0 <= i < |x| && x[i] != y[i];
      assert l[i] == x[i] && r[i] == y[i];
    }
  }

  /** A segment without dots never has a dotted string as a prefix. */
  lemma NoDotPrefix(x: string, y: string)
    requires IsSegment(y)
    ensures !(x + "." <= y)
  {
    var z := x + ".";
    if |z| <= |y| {
      assert y[|x|] in y;
      assert z[|x|] != y[|x|];
    }
  }

  /** The dotted path of a selector determines the selector's member names. */
  lemma {:induction false} DottedInjective(a: seq<string>, b: seq<string>)
    requires AreSegments(a) && AreSegments(b)
    ensures Dotted(a) == Dotted(b) <==> a == b
  {
    if Dotted(a) == Dotted(b) {
      if |a| == 1 && |b| == 1 {
      } else if |a| == 1 || |b| == 1 {
        // one side has a dot and the other has none
      } else {
        FirstDotPrefix(a[0], Dotted(a[1..]), b[0], Dotted(b[1..]));
        FirstDotPrefix(b[0], Dotted(b[1..]), a[0], Dotted(a[1..]));
        DottedInjective(a[1..], b[1..]);
        assert a == [a[0]] + a[1..] && b == [b[0]] + b[1..];
      }
    }
  }

  /** `Dotted(b) + "."` begins `Dotted(a)` exactly when b is a proper prefix of a. */
  lemma {:induction false} DottedSegmentPrefix(a: seq<string>, b: seq<string>)
    requires AreSegments(a) && AreSegments(b)
    ensures Dotted(b) + "." <= Dotted(a) <==> b < a
  {
    if |a| == 1 {
      NoDotPrefix(Dotted(b), a[0]);
    } else if |b| == 1 {
      FirstDotPrefix(b[0], [], a[0], Dotted(a[1..]));
      assert b[0] + "." + [] == Dotted(b) + ".";
      if b < a {
        assert b[0] == a[0];
      }
      if b[0] == a[0] {
        assert b == a[..1];
      }
    } else {
      DottedSegmentPrefix(a[1..], b[1..]);
      assert Dotted(b) + "." == b[0] + "." + (Dotted(b[1..]) + ".");
      FirstDotPrefix(b[0], Dotted(b[1..]) + ".", a[0], Dotted(a[1..]));
      if b < a {
        assert b[1..] < a[1..];
      }
      if b[0] == a[0] && b[1..] < a[1..] {
        assert b == [b[0]] + b[1..] && a == [a[0]] + a[1..];
      }
    }
  }

  /** Path comparison on selectors written by callers compares their member names. */
  lemma SelectorPathEquals(a: seq<string>, b: seq<string>)
    requires AreSegments(a) && AreSegments(b)
    ensures PathEquals(SelectorFor(a), SelectorFor(b), false) == Success(a == b)
  {
    SelectorPath(a);
    SelectorPath(b);
    DottedInjective(a, b);
  }

  /** Prefix comparison on selectors written by callers is segment-wise: it holds exactly when
      the path's member names begin the value's member names. */
  lemma SelectorStartsWith(a: seq<string>, b: seq<string>)
    requires AreSegments(a) && AreSegments(b)
    ensures StartsWith(SelectorFor(a), SelectorFor(b), false) == Success(b <= a)
  {
    SelectorPath(a);
    SelectorPath(b);
    DottedInjective(a, b);
    DottedSegmentPrefix(a, b);
  }

  /** For a non-null path, a positive PathEquals is also a positive StartsWith. */
  lemma PathEqualsImpliesStartsWith(value: Expr, path: Expr, sameInstance: bool)
    requires sameInstance ==> value == path
    requires !path.Null?
    requires PathEquals(value, path, sameInstance) == Success(true)
    ensures StartsWith(value, path, sameInstance) == Success(true)
  {
  }

  /** The same instance is equal to itself and starts with itself even when it could not be
      parsed, since neither comparison then extracts a path. */
  lemma SameInstanceShortCircuits(value: Expr)
    requires !value.Null?
    ensures PathEquals(value, value, true) == Success(true)
    ensures StartsWith(value, value, true) == Success(true)
  {
  }

  /** Path extraction on a one-segment and a two-segment selector. */
  lemma SelectorExamples()
    ensures GetPathString(SelectorFor(["Foo"])) == Success(Some("Foo"))
    ensures GetPathString(SelectorFor(["Foo", "Bar"])) == Success(Some("Foo.Bar"))
  {
    SelectorPath(["Foo"]);
    SelectorPath(["Foo", "Bar"]);
    assert Dotted(["Foo", "Bar"]) == "Foo" + "." + Dotted(["Bar"]) == "Foo" + "." + "Bar";
    assert "Foo" + "." + "Bar" == "Foo.Bar";
  }

  /** Equality and prefix comparison on the selectors the repositories use. */
  lemma ComparisonExamples()
    ensures PathEquals(SelectorFor(["Policies"]), SelectorFor(["Policies"]), false) == Success(true)
    ensures PathEquals(SelectorFor(["Policies"]), SelectorFor(["Name"]), false) == Success(false)
    ensures StartsWith(SelectorFor(["Policies", "PolicyVersions"]), SelectorFor(["Policies"]), false) == Success(true)
    ensures StartsWith(SelectorFor(["PoliciesX"]), SelectorFor(["Policies"]), false) == Success(false)
  {
    assert IsSegment("Policies") && IsSegment("PolicyVersions") && IsSegment("Name") && IsSegment("PoliciesX");
    SelectorPathEquals(["Policies"], ["Policies"]);
    SelectorPathEquals(["Policies"], ["Name"]);
    SelectorStartsWith(["Policies", "PolicyVersions"], ["Policies"]);
    SelectorStartsWith(["PoliciesX"], ["Policies"]);
  }
}
