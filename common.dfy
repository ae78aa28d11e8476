/** Vocabulary shared by every route handler: optional request fields,
    JavaScript truthiness, the HTTP outcome of a handler, and a few
    sequence helpers that stand for the array methods the handlers call. */
module Common {

  /** A request field that may be absent (`undefined` in JavaScript). */
  datatype Option<+T> = None | Some(value: T)

  /** The HTTP outcome of a route handler. */
  datatype Status =
    | Ok                // 200
    | Created(id: nat)  // 201, carrying the id of the record just stored
    | BadRequest        // 400: the handler's own input checks
    | NotFound          // 404: record absent or owned by another tenant
    | SchemaError       // 500: a Mongoose validator or the unique index refused the write

  /** JavaScript truthiness of an optional string: `undefined` and `""` are falsy. */
  predicate Truthy(s: Option<string>)
  {
    s.Some? && s.value != ""
  }

  /** JavaScript truthiness of an optional number: `undefined` and `0` are falsy. */
  predicate TruthyNumber(x: Option<real>)
  {
    x.Some? && x.value != 0.0
  }

  /** `x || fallback` on a number field. */
  function NumberOr(x: Option<real>, fallback: real): (r: real)
    ensures TruthyNumber(x) ==> r == x.value
    ensures !TruthyNumber(x) ==> r == fallback
  {
    if TruthyNumber(x) then x.value else fallback
  }

  /** `x !== undefined ? x : current`, the partial-update idiom of the handlers. */
  function IfDefined<T>(x: Option<T>, current: T): (r: T)
    ensures x.Some? ==> r == x.value
    ensures x.None? ==> r == current
  {
    if x.Some? then x.value else current
  }

  /** `if (x) field = x`, or `x || current`, on a string field. */
  function IfTruthy(x: Option<string>, current: string): (r: string)
    ensures Truthy(x) ==> r == x.value
    ensures !Truthy(x) ==> r == current
  {
    if Truthy(x) then x.value else current
  }

  /** True when `q` occurs in `s` as a contiguous substring. */
  predicate Contains(s: string, q: string)
  {
    |q| <= |s| && (s[..|q|] == q || Contains(s[1..], q))
  }

  /** `Array.prototype.filter`: the elements that satisfy `p`, in their order. */
  function Filter<T>(s: seq<T>, p: T -> bool): (r: seq<T>)
    ensures |r| <= |s|
    ensures forall x :: x in r ==> x in s && p(x)
    ensures forall x :: x in s && p(x) ==> x in r
  {
    if s == [] then []
    else if p(s[0]) then [s[0]] + Filter(s[1..], p)
    else Filter(s[1..], p)
  }

  /** The filter keeps elements in their order: filtering a concatenation
      concatenates the filtered parts. */
  lemma {:induction false} FilterConcat<T>(a: seq<T>, b: seq<T>, p: T -> bool)
    ensures Filter(a + b, p) == Filter(a, p) + Filter(b, p)
  {
    if a == [] {
      assert a + b == b;
    } else {
      var ab := a + b;
      assert ab[0] == a[0] && ab[1..] == a[1..] + b;
      FilterConcat(a[1..], b, p);
      if p(a[0]) {
        calc {
          Filter(ab, p);
          [a[0]] + Filter(a[1..] + b, p);
          [a[0]] + (Filter(a[1..], p) + Filter(b, p));
          ([a[0]] + Filter(a[1..], p)) + Filter(b, p);
        }
      }
    }
  }

  /** The filter keeps exactly as many elements as satisfy `p`. */
  lemma {:induction false} FilterCount<T>(s: seq<T>, p: T -> bool)
    ensures |Filter(s, p)| == CountBy(s, p)
  {
    if s != [] {
      var init, last := s[..|s| - 1], s[|s| - 1];
      assert s == init + [last];
      FilterConcat(init, [last], p);
      FilterCount(init, p);
      assert [last][1..] == [];
    }
  }

  /** Mongo's `.limit(n)`: the first `n` elements, or all of them. */
  function Take<T>(s: seq<T>, n: nat): (r: seq<T>)
    ensures |r| == if |s| <= n then |s| else n
    ensures r == s[..|r|]
  {
    if |s| <= n then s else s[..n]
  }

  /** The index of the first element satisfying `p` (Mongo's `findOne`). */
  function FirstIndex<T>(s: seq<T>, p: T -> bool): (r: Option<nat>)
    ensures r.Some? ==> r.value < |s| && p(s[r.value])
    ensures r.Some? ==> forall k :: 0 <= k < r.value ==> !p(s[k])
    ensures r.None? ==> forall k :: 0 <= k < |s| ==> !p(s[k])
  {
    if s == [] then None
    else if p(s[0]) then Some(0)
    else
      match FirstIndex(s[1..], p)
      case None => None
      case Some(k) => Some(k + 1)
  }

  /** `s` with the element at `i` removed (a document's `deleteOne`). */
  function RemoveAt<T>(s: seq<T>, i: nat): (r: seq<T>)
    requires i < |s|
    ensures |r| == |s| - 1
    ensures forall k :: 0 <= k < i ==> r[k] == s[k]
    ensures forall k :: i <= k < |r| ==> r[k] == s[k + 1]
  {
    s[..i] + s[i + 1..]
  }

  /** The sum of `f` over the elements of `s`, added from first to last. */
  function SumBy<T>(s: seq<T>, f: T -> real): real
  {
    if s == [] then 0.0 else SumBy(s[..|s| - 1], f) + f(s[|s| - 1])
  }

  /** The number of elements of `s` that satisfy `p`. */
  function CountBy<T>(s: seq<T>, p: T -> bool): nat
  {
    if s == [] then 0 else CountBy(s[..|s| - 1], p) + (if p(s[|s| - 1]) then 1 else 0)
  }

  lemma SumByAppend<T>(s: seq<T>, x: T, f: T -> real)
    ensures SumBy(s + [x], f) == SumBy(s, f) + f(x)
  {
    assert (s + [x])[..|s|] == s;
  }

  lemma {:induction false} SumByConcat<T>(a: seq<T>, b: seq<T>, f: T -> real)
    ensures SumBy(a + b, f) == SumBy(a, f) + SumBy(b, f)
  {
    if b == [] {
      assert a + b == a;
    } else {
      var b' := b[..|b| - 1];
      assert a + b == (a + b') + [b[|b| - 1]];
      SumByAppend(a + b', b[|b| - 1], f);
      SumByConcat(a, b', f);
      assert b == b' + [b[|b| - 1]];
      SumByAppend(b', b[|b| - 1], f);
    }
  }

  /** Removing one element takes its share out of the sum. */
  lemma {:induction false} SumByRemove<T>(s: seq<T>, i: nat, f: T -> real)
    requires i < |s|
    ensures SumBy(RemoveAt(s, i), f) == SumBy(s, f) - f(s[i])
  {
    var before, after := s[..i], s[i + 1..];
    assert s == (before + [s[i]]) + after;
    SumByConcat(before + [s[i]], after, f);
    SumByAppend(before, s[i], f);
    SumByConcat(before, after, f);
  }

  /** Replacing one element swaps its share in the sum. */
  lemma {:induction false} SumByUpdate<T>(s: seq<T>, i: nat, x: T, f: T -> real)
    requires i < |s|
    ensures SumBy(s[i := x], f) == SumBy(s, f) - f(s[i]) + f(x)
  {
    SumByRemove(s, i, f);
    SumByRemove(s[i := x], i, f);
    assert RemoveAt(s[i := x], i) == RemoveAt(s, i);
  }

  lemma CountByAppend<T>(s: seq<T>, x: T, p: T -> bool)
    ensures CountBy(s + [x], p) == CountBy(s, p) + (if p(x) then 1 else 0)
  {
    assert (s + [x])[..|s|] == s;
  }

  lemma {:induction false} CountByConcat<T>(a: seq<T>, b: seq<T>, p: T -> bool)
    ensures CountBy(a + b, p) == CountBy(a, p) + CountBy(b, p)
  {
    if b == [] {
      assert a + b == a;
    } else {
      var b' := b[..|b| - 1];
      assert a + b == (a + b') + [b[|b| - 1]];
      CountByAppend(a + b', b[|b| - 1], p);
      CountByConcat(a, b', p);
      assert b == b' + [b[|b| - 1]];
      CountByAppend(b', b[|b| - 1], p);
    }
  }

  /** Removing one element takes it out of the count. */
  lemma {:induction false} CountByRemove<T>(s: seq<T>, i: nat, p: T -> bool)
    requires i < |s|
    ensures CountBy(RemoveAt(s, i), p) == CountBy(s, p) - (if p(s[i]) then 1 else 0)
  {
    var before, x, after := s[..i], s[i], s[i + 1..];
    assert s == (before + [x]) + after;
    assert RemoveAt(s, i) == before + after;
    var one := if p(x) then 1 else 0;
    CountByAppend(before, x, p);
    assert CountBy(before + [x], p) == CountBy(before, p) + one;
    CountByConcat(before + [x], after, p);
    CountByConcat(before, after, p);
  }

  /** Replacing one element swaps its part in the count. */
  lemma {:induction false} CountByUpdate<T>(s: seq<T>, i: nat, x: T, p: T -> bool)
    requires i < |s|
    ensures CountBy(s[i := x], p) == CountBy(s, p) - (if p(s[i]) then 1 else 0) + (if p(x) then 1 else 0)
  {
    CountByRemove(s, i, p);
    CountByRemove(s[i := x], i, p);
    assert RemoveAt(s[i := x], i) == RemoveAt(s, i);
  }

  /** An element no test accepts adds nothing to the sum anywhere in the sequence. */
  lemma {:induction false} SumByZero<T>(s: seq<T>, f: T -> real)
    requires forall k :: 0 <= k < |s| ==> f(s[k]) == 0.0
    ensures SumBy(s, f) == 0.0
  {
    if s != [] {
      SumByZero(s[..|s| - 1], f);
    }
  }

  lemma {:induction false} CountByZero<T>(s: seq<T>, p: T -> bool)
    requires forall k :: 0 <= k < |s| ==> !p(s[k])
    ensures CountBy(s, p) == 0
  {
    if s != [] {
      CountByZero(s[..|s| - 1], p);
    }
  }
}
