/**
 * `match` and `when` of `src/services/match.ts`. A guard is a boolean, a
 * branch a thunk; `match` calls only the thunk it selects.
 */
module Match {
  import opened Wrappers

  /** The index of the first true guard, as `Array.prototype.find` scans. */
  function FirstTrue<T>(l: seq<(bool, () -> T)>): (r: Option<nat>)
    ensures r.Some? ==> r.value < |l| && l[r.value].0 && forall j :: 0 <= j < r.value ==> !l[j].0
    ensures r.None? <==> forall j :: 0 <= j < |l| ==> !l[j].0
  {
    if l == [] then None
    else if l[0].0 then Some(0)
    else
      match FirstTrue(l[1..])
      case None => None
      case Some(i) => Some(i + 1)
  }

  /** `match(l)(ow)`: the branch of the first true guard, else the fallback. */
  function Match<T>(l: seq<(bool, () -> T)>, ow: () -> T): (r: T)
    ensures forall i :: 0 <= i < |l| && l[i].0 && (forall j :: 0 <= j < i ==> !l[j].0) ==> r == l[i].1()
    ensures (forall i :: 0 <= i < |l| ==> !l[i].0) ==> r == ow()
  {
    match FirstTrue(l)
    case Some(i) => l[i].1()
    case None => ow()
  }

  /** The guards of `l`, lifted so that a missing fallback can be told apart. */
  function Lift<T>(l: seq<(bool, () -> T)>): (r: seq<(bool, () -> Option<T>)>)
    ensures |r| == |l|
    ensures forall i :: 0 <= i < |l| ==> r[i].0 == l[i].0 && r[i].1() == Some(l[i].1())
  {
    seq(|l|, i requires 0 <= i < |l| => (l[i].0, () => Some(l[i].1())))
  }

  /** `match(l)()`: the default fallback yields `undefined`, written `None`. */
  function MatchOrUndefined<T>(l: seq<(bool, () -> T)>): (r: Option<T>)
  {
    Match(Lift(l), () => None)
  }

  /** With a true guard the result is the first one's branch; with none it is `undefined`. */
  lemma MatchOrUndefinedCases<T>(l: seq<(bool, () -> T)>)
    ensures MatchOrUndefined(l) == None <==> forall i :: 0 <= i < |l| ==> !l[i].0
    ensures FirstTrue(l).Some? ==> MatchOrUndefined(l) == Some(l[FirstTrue(l).value].1())
  {
    var lifted := Lift(l);
    if i :| 0 <= i < |l| && l[i].0 {
      var k := FirstTrue(l).value;
      assert lifted[k].0 && forall j :: 0 <= j < k ==> !lifted[j].0;
      assert MatchOrUndefined(l) == lifted[k].1();
    }
  }

  /** A true guard shadows every later one, true or not. */
  lemma EarlierGuardWins<T>(a: seq<(bool, () -> T)>, branch: () -> T, b: seq<(bool, () -> T)>, ow: () -> T)
    requires forall j :: 0 <= j < |a| ==> !a[j].0
    ensures Match(a + [(true, branch)] + b, ow) == branch()
  {
    var l := a + [(true, branch)] + b;
    assert l[|a|] == (true, branch);
    assert forall j :: 0 <= j < |a| ==> l[j] == a[j];
  }

  /** What `when` returns: the branch's value, or the literal `false`. */
  datatype WhenResult<T> = Value(value: T) | False

  /**
   * `when([exp, fn])`: `fn()` when `exp` holds and the result is truthy, else
   * `false`; `truthy` is JavaScript's truthiness on `T`.
   */
  function When<T>(exp: bool, fn: () -> T, truthy: T -> bool): (r: WhenResult<T>)
    ensures r.Value? ==> exp && r.value == fn() && truthy(r.value)
    ensures exp && truthy(fn()) ==> r == Value(fn())
  {
    if exp && truthy(fn()) then Value(fn()) else False
  }

  /** With a false guard the thunk plays no part in the result. */
  lemma WhenFalseIgnoresThunk<T>(fn: () -> T, other: () -> T, truthy: T -> bool)
    ensures When(false, fn, truthy) == When(false, other, truthy) == False
  {
  }

  /**
   * `when` against `match` over the single pair with the default fallback:
   * they agree only for a true guard and a truthy branch. A false guard gives
   * `false` from `when` but `undefined` from `match`; a falsy branch gives
   * `false` from `when` but the falsy value itself from `match`.
   */
  lemma WhenAgainstSingleMatch<T>(exp: bool, fn: () -> T, truthy: T -> bool)
    ensures exp && truthy(fn()) ==>
      When(exp, fn, truthy) == Value(fn()) && MatchOrUndefined([(exp, fn)]) == Some(fn())
    ensures !exp ==> When(exp, fn, truthy) == False && MatchOrUndefined([(exp, fn)]) == None
    ensures exp && !truthy(fn()) ==>
      When(exp, fn, truthy) == False && MatchOrUndefined([(exp, fn)]) == Some(fn())
  {
    MatchOrUndefinedCases([(exp, fn)]);
  }
}
