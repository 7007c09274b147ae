/** `fix_os_paths` from the forms field tests: turns Windows path separators
    into slashes, inside strings and inside (nested) lists and tuples. */
module FieldsUnit {
  import opened Values

  /** `s.replace('\\', '/')`: every backslash becomes a slash. */
  function ReplaceBackslashes(s: string): (r: string)
    ensures |r| == |s|
    ensures forall i :: 0 <= i < |s| ==> r[i] == (if s[i] == '\\' then '/' else s[i])
    ensures '\\' !in r
  {
    if s == [] then []
    else [if s[0] == '\\' then '/' else s[0]] + ReplaceBackslashes(s[1..])
  }

  /** `fix_os_paths(x)`.  The tuple case is `tuple(fix_os_paths(list(x)))`,
      i.e. the list comprehension applied to the tuple's elements. */
  function FixOsPaths(x: Value): (r: Value)
    ensures (r.Str? <==> x.Str?) && (r.List? <==> x.List?) && (r.Tuple? <==> x.Tuple?)
    ensures x.Str? ==> |r.s| == |x.s| && '\\' !in r.s
    ensures (x.List? || x.Tuple?) ==> |r.items| == |x.items|
    ensures !x.Str? && !x.List? && !x.Tuple? ==> r == x
    decreases x
  {
    match x
    case Str(s) => Str(ReplaceBackslashes(s))
    case Tuple(items) => Tuple(FixEach(items))
    case List(items) => List(FixEach(items))
    case _ => x
  }

  /** `[fix_os_paths(y) for y in x]` */
  function FixEach(xs: seq<Value>): (r: seq<Value>)
    ensures |r| == |xs|
    ensures forall i :: 0 <= i < |xs| ==> r[i] == FixOsPaths(xs[i])
    decreases xs
  {
    if xs == [] then [] else [FixOsPaths(xs[0])] + FixEach(xs[1..])
  }

  /** What each kind of value becomes: a string keeps its length and loses its
      backslashes, a list or tuple keeps its kind and length and has each
      element normalised, anything else is returned unchanged. */
  lemma FixOsPathsCases(x: Value)
    ensures x.Str? ==> FixOsPaths(x).Str? && |FixOsPaths(x).s| == |x.s| && '\\' !in FixOsPaths(x).s
    ensures x.Str? ==> forall i :: 0 <= i < |x.s| ==>
      FixOsPaths(x).s[i] == (if x.s[i] == '\\' then '/' else x.s[i])
    ensures x.List? ==> FixOsPaths(x).List? && |FixOsPaths(x).items| == |x.items|
    ensures x.Tuple? ==> FixOsPaths(x).Tuple? && |FixOsPaths(x).items| == |x.items|
    ensures (x.List? || x.Tuple?) ==> forall i :: 0 <= i < |x.items| ==>
      FixOsPaths(x).items[i] == FixOsPaths(x.items[i])
    ensures !x.Str? && !x.List? && !x.Tuple? ==> FixOsPaths(x) == x
  {
  }

  /** A tuple is normalised exactly as the list of its elements would be. */
  lemma TupleAsList(items: seq<Value>)
    ensures FixOsPaths(Tuple(items)) == Tuple(FixOsPaths(List(items)).items)
  {
  }

  /** A string without backslashes is left alone. */
  lemma {:induction false} ReplaceBackslashesFixes(s: string)
    requires '\\' !in s
    ensures ReplaceBackslashes(s) == s
  {
    if s != [] {
      ReplaceBackslashesFixes(s[1..]);
    }
  }

  /** `fix_os_paths` is idempotent. */
  lemma {:induction false} FixOsPathsIdempotent(x: Value)
    ensures FixOsPaths(FixOsPaths(x)) == FixOsPaths(x)
    decreases x
  {
    match x
    case Str(s) => ReplaceBackslashesFixes(ReplaceBackslashes(s));
    case Tuple(items) => FixEachIdempotent(items);
    case List(items) => FixEachIdempotent(items);
    case _ =>
  }

  lemma {:induction false} FixEachIdempotent(xs: seq<Value>)
    ensures FixEach(FixEach(xs)) == FixEach(xs)
    decreases xs
  {
    if xs != [] {
      FixOsPathsIdempotent(xs[0]);
      FixEachIdempotent(xs[1..]);
      assert FixEach(xs)[1..] == FixEach(xs[1..]);
    }
  }
}
