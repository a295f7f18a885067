/**
 * `handleUpdate`, `handleInsert`, `handleRemove` and `handleMethods`, written
 * identically in `arrayStateHandlers.ts` and `arrayRBoxHandlers.ts`; both
 * dispatchers use this one model. The `index` is a JavaScript number:
 * `i === index` holds only for a finite index equal to the position `i`, and
 * it may be `Infinity` (the history list is appended to that way).
 */
module ArrayHandlers {
  import opened ExtNum
  import Match

  /** `s.flatMap((item, i) => f(item, i))`. */
  function FlatMapIndexed<T>(s: seq<T>, f: (T, nat) -> seq<T>): seq<T>
  {
    if s == [] then [] else FlatMapIndexed(s[..|s| - 1], f) + f(s[|s| - 1], |s| - 1)
  }

  /** `i === index`. */
  predicate At(index: Num, i: int) { index == Fin(i as real) }

  /** A valid position: `index` is one of `0 .. len - 1`. */
  predicate Position(index: Num, len: nat, k: int) { 0 <= k < len && At(index, k) }

  /** Every element maps to itself, except perhaps the one at `k`. */
  ghost predicate KeepsAllBut<T>(s: seq<T>, f: (T, nat) -> seq<T>, k: int)
  {
    forall i :: 0 <= i < |s| && i != k ==> f(s[i], i) == [s[i]]
  }

  /** A flatMap that keeps every element but the one at `k` maps the sequence around it. */
  lemma {:induction false} FlatMapAround<T>(s: seq<T>, f: (T, nat) -> seq<T>, k: int)
    requires KeepsAllBut(s, f, k)
    ensures 0 <= k < |s| ==> FlatMapIndexed(s, f) == s[..k] + f(s[k], k) + s[k + 1..]
    ensures !(0 <= k < |s|) ==> FlatMapIndexed(s, f) == s
  {
    if s != [] {
      var last := |s| - 1;
      var init := s[..last];
      assert KeepsAllBut(init, f, k) by {
        forall i | 0 <= i < |init| && i != k ensures f(init[i], i) == [init[i]] {
          assert init[i] == s[i];
        }
      }
      FlatMapAround(init, f, k);
      if 0 <= k < last {
        FlatMapAroundStep(s, f, k);
      } else if k == last {
        assert init == s[..k] && s[k + 1..] == [];
      } else {
        assert f(s[last], last) == [s[last]];
        assert init + [s[last]] == s;
      }
    }
  }

  lemma FlatMapAroundStep<T>(s: seq<T>, f: (T, nat) -> seq<T>, k: int)
    requires 0 <= k < |s| - 1
    requires f(s[|s| - 1], |s| - 1) == [s[|s| - 1]]
    requires FlatMapIndexed(s[..|s| - 1], f) == s[..|s| - 1][..k] + f(s[k], k) + s[..|s| - 1][k + 1..]
    ensures FlatMapIndexed(s, f) == s[..k] + f(s[k], k) + s[k + 1..]
  {
    var left := FlatMapIndexed(s[..|s| - 1], f);
    assert FlatMapIndexed(s, f) == left + [s[|s| - 1]];
    Regroup(s, k, f(s[k], k));
  }

  /** Splitting `s` before its last element, around position `k`. */
  lemma Regroup<T>(s: seq<T>, k: int, mid: seq<T>)
    requires 0 <= k < |s| - 1
    ensures s[..|s| - 1][..k] + mid + s[..|s| - 1][k + 1..] + [s[|s| - 1]] == s[..k] + mid + s[k + 1..]
  {
    var init := s[..|s| - 1];
    assert init[..k] == s[..k];
    assert init[k + 1..] + [s[|s| - 1]] == s[k + 1..];
    assert init[..k] + mid + init[k + 1..] + [s[|s| - 1]] == s[..k] + mid + (init[k + 1..] + [s[|s| - 1]]);
  }

  /** The element maps of the three helpers. */
  function UpdateAt<T>(index: Num, value: T): (T, nat) -> seq<T>
  {
    (item: T, i: nat) => if At(index, i) then [value] else [item]
  }

  function RemoveAt<T>(index: Num): (T, nat) -> seq<T>
  {
    (item: T, i: nat) => if At(index, i) then [] else [item]
  }

  function InsertAt<T>(index: Num, value: T): (T, nat) -> seq<T>
  {
    (item: T, i: nat) => if At(index, i) then [value, item] else [item]
  }

  /** `handleUpdate`. */
  function Update<T>(prev: seq<T>, index: Num, value: T): seq<T>
  {
    FlatMapIndexed(prev, UpdateAt(index, value))
  }

  /** `handleRemove`. */
  function Remove<T>(prev: seq<T>, index: Num): seq<T>
  {
    FlatMapIndexed(prev, RemoveAt(index))
  }

  /** The guarded branches of `handleInsert`, in order. */
  function InsertCases<T>(prev: seq<T>, index: Num, value: T): seq<(bool, () -> seq<T>)>
  {
    [(|prev| == 0, () => [value]),
     (Gt(index, |prev| as real), () => prev + [value]),
     (Le(index, 0.0), () => [value] + prev)]
  }

  /** `handleInsert`: the guards in order, then the interior insert as fallback. */
  function Insert<T>(prev: seq<T>, index: Num, value: T): seq<T>
  {
    Match.Match(InsertCases(prev, index, value), () => FlatMapIndexed(prev, InsertAt(index, value)))
  }

  /** Updating writes `value` at a valid index and nothing else; any other index changes nothing. */
  lemma UpdateSpec<T>(prev: seq<T>, index: Num, value: T)
    ensures |Update(prev, index, value)| == |prev|
    ensures forall k :: 0 <= k < |prev| ==>
      Update(prev, index, value)[k] == if At(index, k) then value else prev[k]
    ensures (forall k :: !Position(index, |prev|, k)) ==> Update(prev, index, value) == prev
  {
    var f := UpdateAt(index, value);
    if k :| Position(index, |prev|, k) {
      assert KeepsAllBut(prev, f, k);
      FlatMapAround(prev, f, k);
      assert Update(prev, index, value) == prev[..k] + [value] + prev[k + 1..];
    } else {
      forall i | 0 <= i < |prev| ensures f(prev[i], i) == [prev[i]] {
        assert !Position(index, |prev|, i);
      }
      FlatMapAround(prev, f, -1);
    }
  }

  /** Removing at a valid index deletes exactly that element; any other index changes nothing. */
  lemma RemoveSpec<T>(prev: seq<T>, index: Num)
    ensures forall k :: Position(index, |prev|, k) ==> Remove(prev, index) == prev[..k] + prev[k + 1..]
    ensures (forall k :: !Position(index, |prev|, k)) ==> Remove(prev, index) == prev
  {
    var f := RemoveAt<T>(index);
    if k :| Position(index, |prev|, k) {
      assert KeepsAllBut(prev, f, k);
      FlatMapAround(prev, f, k);
      assert Remove(prev, index) == prev[..k] + prev[k + 1..];
    } else {
      forall i | 0 <= i < |prev| ensures f(prev[i], i) == [prev[i]] {
        assert !Position(index, |prev|, i);
      }
      FlatMapAround(prev, f, -1);
    }
  }

  /**
   * The cases of `handleInsert`, tried in order: an empty list becomes
   * `[value]`; an index beyond the length appends; an index at or below 0
   * prepends; a valid position `k > 0` inserts just before `prev[k]`; any
   * other index, `|prev|` itself among them, leaves the list unchanged.
   */
  lemma InsertSpec<T>(prev: seq<T>, index: Num, value: T)
    ensures |prev| == 0 ==> Insert(prev, index, value) == [value]
    ensures |prev| > 0 && Gt(index, |prev| as real) ==> Insert(prev, index, value) == prev + [value]
    ensures |prev| > 0 && !Gt(index, |prev| as real) && Le(index, 0.0) ==>
      Insert(prev, index, value) == [value] + prev
    ensures forall k :: 0 < k && Position(index, |prev|, k) ==>
      Insert(prev, index, value) == prev[..k] + [value] + prev[k..]
    ensures (|prev| > 0 && !Gt(index, |prev| as real) && !Le(index, 0.0)
             && forall k :: !Position(index, |prev|, k)) ==> Insert(prev, index, value) == prev
  {
    var f := InsertAt(index, value);
    var cases := InsertCases(prev, index, value);
    assert cases[0].0 == (|prev| == 0) && cases[0].1() == [value];
    assert cases[1].0 == Gt(index, |prev| as real) && cases[1].1() == prev + [value];
    assert cases[2].0 == Le(index, 0.0) && cases[2].1() == [value] + prev;
    if |prev| > 0 && !Gt(index, |prev| as real) && !Le(index, 0.0) {
      assert Insert(prev, index, value) == FlatMapIndexed(prev, f);
      if k :| Position(index, |prev|, k) {
        assert KeepsAllBut(prev, f, k);
        FlatMapAround(prev, f, k);
        assert prev[..k] + [value, prev[k]] + prev[k + 1..] == prev[..k] + [value] + prev[k..] by {
          assert prev[k..] == [prev[k]] + prev[k + 1..];
        }
      } else {
        forall i | 0 <= i < |prev| ensures f(prev[i], i) == [prev[i]] {
          assert !Position(index, |prev|, i);
        }
        FlatMapAround(prev, f, -1);
      }
    }
  }

  /** Inserting with index `Infinity` always appends. */
  lemma InsertInfinityAppends<T>(prev: seq<T>, value: T)
    ensures Insert(prev, PosInf, value) == prev + [value]
  {
    InsertSpec(prev, PosInf, value);
  }

  /** Inserting at `index == |prev|` into a non-empty list drops the value. */
  lemma InsertAtLengthDrops<T>(prev: seq<T>, value: T)
    requires |prev| > 0
    ensures Insert(prev, Fin(|prev| as real), value) == prev
  {
    InsertSpec(prev, Fin(|prev| as real), value);
  }

  /** Every insert that does not drop its value lengthens the list by one and keeps the order of the rest. */
  lemma InsertKeepsOthers<T>(prev: seq<T>, index: Num, value: T)
    ensures var r := Insert(prev, index, value);
      r == prev || exists k :: 0 <= k <= |prev| && r == prev[..k] + [value] + prev[k..]
  {
    InsertSpec(prev, index, value);
    var r := Insert(prev, index, value);
    if |prev| == 0 {
      assert r == prev[..0] + [value] + prev[0..];
    } else if Gt(index, |prev| as real) {
      assert r == prev[..|prev|] + [value] + prev[|prev|..];
    } else if Le(index, 0.0) {
      assert r == prev[..0] + [value] + prev[0..];
    }
  }

  /** Inserting at a valid position `k`, or at 0 into an empty list, puts `value` just before `prev[k]`. */
  lemma InsertAtPosition<T>(prev: seq<T>, k: nat, value: T)
    requires k < |prev| || (|prev| == 0 && k == 0)
    ensures Insert(prev, Fin(k as real), value) == prev[..k] + [value] + prev[k..]
  {
    InsertSpec(prev, Fin(k as real), value);
    if k == 0 {
      assert prev[..0] + [value] + prev[0..] == [value] + prev;
    } else {
      assert Position(Fin(k as real), |prev|, k);
    }
  }

  /** Removing at the index just inserted at restores the list (a valid index, or 0 on an empty list). */
  lemma RemoveAfterInsert<T>(prev: seq<T>, k: nat, value: T)
    requires k < |prev| || (|prev| == 0 && k == 0)
    ensures Remove(Insert(prev, Fin(k as real), value), Fin(k as real)) == prev
  {
    InsertAtPosition(prev, k, value);
    RemoveAtPosition(prev[..k] + [value] + prev[k..], k);
    DropInserted(prev, k, value);
  }

  lemma RemoveAtPosition<T>(s: seq<T>, k: nat)
    requires k < |s|
    ensures Remove(s, Fin(k as real)) == s[..k] + s[k + 1..]
  {
    RemoveSpec(s, Fin(k as real));
    assert Position(Fin(k as real), |s|, k);
  }

  lemma DropInserted<T>(prev: seq<T>, k: nat, value: T)
    requires k <= |prev|
    ensures var inserted := prev[..k] + [value] + prev[k..];
      inserted[..k] + inserted[k + 1..] == prev
  {
    var inserted := prev[..k] + [value] + prev[k..];
    assert inserted[..k] == prev[..k];
    assert inserted[k + 1..] == prev[k..];
    assert prev[..k] + prev[k..] == prev;
  }

  /** The keys of `handleMethods`. */
  datatype Operation = UpdateOp | InsertOp | RemoveOp

  function Name(op: Operation): string
  {
    match op
    case UpdateOp => "update"
    case InsertOp => "insert"
    case RemoveOp => "remove"
  }

  /** `handleMethods()[op](prev, index, value)`; `remove` ignores the value. */
  function HandleMethod<T>(op: Operation, prev: seq<T>, index: Num, value: T): seq<T>
  {
    match op
    case UpdateOp => Update(prev, index, value)
    case InsertOp => Insert(prev, index, value)
    case RemoveOp => Remove(prev, index)
  }

  /** The operations in the order the dispatchers list them. */
  const Operations := [UpdateOp, InsertOp, RemoveOp]

  /** The updater both dispatchers build: `match` over the three names, `prev` as fallback. */
  function Dispatch<T>(prev: seq<T>, operation: string, index: Num, value: T): seq<T>
  {
    Match.Match(
      seq(3, i requires 0 <= i < 3 =>
        (Name(Operations[i]) == operation, () => HandleMethod(Operations[i], prev, index, value))),
      () => prev)
  }

  /** The named operation, applied to the previous list; an unknown name returns the list unchanged. */
  lemma DispatchSpec<T>(prev: seq<T>, operation: string, index: Num, value: T)
    ensures forall op :: Name(op) == operation ==> Dispatch(prev, operation, index, value) == HandleMethod(op, prev, index, value)
    ensures operation !in {"update", "insert", "remove"} ==> Dispatch(prev, operation, index, value) == prev
  {
    var l := seq(3, i requires 0 <= i < 3 =>
        (Name(Operations[i]) == operation, () => HandleMethod(Operations[i], prev, index, value)));
    assert l[0].0 == (operation == "update");
    assert l[1].0 == (operation == "insert");
    assert l[2].0 == (operation == "remove");
  }
}
