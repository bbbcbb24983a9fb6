/**
 * `cn(...classes)` from components/utils/formatters.ts: drop every falsy
 * class name (`false`, `null`, `undefined`, `""`) and join the rest with a
 * single space.
 */
module Formatters {

  /** One argument of `cn`: `string | false | null | undefined`. */
  datatype ClassValue = False | Null | Undefined | Str(s: string)

  /** JavaScript truthiness of a class argument (`Boolean(c)`). */
  predicate Truthy(c: ClassValue) {
    c.Str? && c.s != ""
  }

  /** `classes.filter(Boolean)`, keeping the strings themselves. */
  function Truthies(classes: seq<ClassValue>): seq<string> {
    if classes == [] then []
    else (if Truthy(classes[0]) then [classes[0].s] else []) + Truthies(classes[1..])
  }

  /** `Array.prototype.join(sep)` on strings. */
  function Join(parts: seq<string>, sep: string): string {
    if |parts| == 0 then ""
    else if |parts| == 1 then parts[0]
    else parts[0] + sep + Join(parts[1..], sep)
  }

  function Cn(classes: seq<ClassValue>): string {
    Join(Truthies(classes), " ")
  }

  /** `s.split(' ')`: the pieces of `s` between single spaces. */
  function Split(s: string): (r: seq<string>)
    ensures |r| >= 1
  {
    if s == [] then [""]
    else if s[0] == ' ' then [""] + Split(s[1..])
    else var rest := Split(s[1..]); [[s[0]] + rest[0]] + rest[1..]
  }

  lemma {:induction false} TruthiesAppend(a: seq<ClassValue>, b: seq<ClassValue>)
    ensures Truthies(a + b) == Truthies(a) + Truthies(b)
  {
    if a == [] {
      assert a + b == b;
    } else {
      assert (a + b)[1..] == a[1..] + b;
      TruthiesAppend(a[1..], b);
    }
  }

  /** A truthy entry contributes its own text and nothing else. */
  lemma TruthiesOne(c: ClassValue)
    ensures Truthies([c]) == if Truthy(c) then [c.s] else []
  {
  }

  lemma {:induction false} JoinAppend(p: seq<string>, q: seq<string>, sep: string)
    requires p != [] && q != []
    ensures Join(p + q, sep) == Join(p, sep) + sep + Join(q, sep)
  {
    if |p| == 1 {
      assert (p + q)[1..] == q;
    } else {
      assert (p + q)[1..] == p[1..] + q;
      JoinAppend(p[1..], q, sep);
    }
  }

  /** A falsy entry anywhere in the argument list contributes nothing. */
  lemma CnSkipsFalsy(before: seq<ClassValue>, c: ClassValue, after: seq<ClassValue>)
    requires !Truthy(c)
    ensures Cn(before + [c] + after) == Cn(before + after)
  {
    TruthiesAppend(before + [c], after);
    TruthiesAppend(before, [c]);
    TruthiesAppend(before, after);
    TruthiesOne(c);
    assert Truthies(before + [c]) == Truthies(before) + [];
    assert Truthies(before) + [] == Truthies(before);
  }

  /** Joining two argument lists puts exactly one space between the two
      results, and none when either side has no truthy entry. */
  lemma CnAppend(a: seq<ClassValue>, b: seq<ClassValue>)
    ensures Cn(a + b) ==
      if Truthies(a) == [] then Cn(b)
      else if Truthies(b) == [] then Cn(a)
      else Cn(a) + " " + Cn(b)
  {
    TruthiesAppend(a, b);
    if Truthies(a) != [] && Truthies(b) != [] {
      JoinAppend(Truthies(a), Truthies(b), " ");
    } else {
      assert Truthies(a) + Truthies(b) == if Truthies(a) == [] then Truthies(b) else Truthies(a);
    }
  }

  lemma {:induction false} TruthiesNoneTruthy(classes: seq<ClassValue>)
    requires forall i :: 0 <= i < |classes| ==> !Truthy(classes[i])
    ensures Truthies(classes) == []
  {
    if classes != [] {
      TruthiesNoneTruthy(classes[1..]);
    }
  }

  /** Only falsy entries: the result is the empty string. */
  lemma CnAllFalsy(classes: seq<ClassValue>)
    requires forall i :: 0 <= i < |classes| ==> !Truthy(classes[i])
    ensures Cn(classes) == ""
  {
    TruthiesNoneTruthy(classes);
  }

  /** Exactly one truthy entry: it is returned unchanged. */
  lemma CnSingle(classes: seq<ClassValue>, k: nat)
    requires k < |classes| && Truthy(classes[k])
    requires forall i :: 0 <= i < |classes| && i != k ==> !Truthy(classes[i])
    ensures Cn(classes) == classes[k].s
  {
    assert classes == classes[..k] + [classes[k]] + classes[k + 1..];
    TruthiesNoneTruthy(classes[..k]);
    TruthiesNoneTruthy(classes[k + 1..]);
    TruthiesAppend(classes[..k] + [classes[k]], classes[k + 1..]);
    TruthiesAppend(classes[..k], [classes[k]]);
  }

  /** A text survives the filter exactly when it was passed as a non-empty
      string. */
  lemma {:induction false} TruthiesKeepsTruthy(classes: seq<ClassValue>)
    ensures forall s :: s in Truthies(classes) <==> Str(s) in classes && s != ""
  {
    if classes != [] {
      TruthiesKeepsTruthy(classes[1..]);
      assert classes == [classes[0]] + classes[1..];
    }
  }

  lemma {:induction false} SplitNoSpace(a: string)
    requires ' ' !in a
    ensures Split(a) == [a]
  {
    if a != [] {
      SplitNoSpace(a[1..]);
      assert [a[0]] + a[1..] == a;
    }
  }

  lemma {:induction false} SplitAtSpace(a: string, b: string)
    requires ' ' !in a
    ensures Split(a + " " + b) == [a] + Split(b)
  {
    if a == [] {
      assert a + " " + b == [' '] + b;
      assert ([' '] + b)[1..] == b;
    } else {
      assert (a + " " + b)[1..] == a[1..] + " " + b;
      SplitAtSpace(a[1..], b);
      assert [a[0]] + a[1..] == a;
    }
  }

  /** Splitting the joined text on spaces gives back the parts, provided no
      part contains a space itself. */
  lemma {:induction false} SplitJoin(parts: seq<string>)
    requires parts != []
    requires forall i :: 0 <= i < |parts| ==> ' ' !in parts[i]
    ensures Split(Join(parts, " ")) == parts
  {
    if |parts| == 1 {
      SplitNoSpace(parts[0]);
    } else {
      SplitJoin(parts[1..]);
      SplitAtSpace(parts[0], Join(parts[1..], " "));
      assert [parts[0]] + parts[1..] == parts;
    }
  }

  lemma {:induction false} TruthiesNoSpace(classes: seq<ClassValue>)
    requires forall i :: 0 <= i < |classes| && classes[i].Str? ==> ' ' !in classes[i].s
    ensures forall i :: 0 <= i < |Truthies(classes)| ==> ' ' !in Truthies(classes)[i]
  {
    if classes != [] {
      TruthiesNoSpace(classes[1..]);
    }
  }

  /** `cn` is inverted by splitting on spaces: the single-space separators
      are the only spaces in the result, and the truthy entries come back in
      their original order. */
  lemma CnSplitRoundTrip(classes: seq<ClassValue>)
    requires forall i :: 0 <= i < |classes| && classes[i].Str? ==> ' ' !in classes[i].s
    requires Truthies(classes) != []
    ensures Split(Cn(classes)) == Truthies(classes)
  {
    TruthiesNoSpace(classes);
    SplitJoin(Truthies(classes));
  }
}
