/** Vectors and sequence helpers shared by every part of the game model. */
module Geometry {

  /** A position or direction: the x, y and z of a three.js vector, as reals. */
  datatype Vec3 = Vec3(x: real, y: real, z: real)

  const Origin := Vec3(0.0, 0.0, 0.0)

  function Add(a: Vec3, b: Vec3): Vec3 {
    Vec3(a.x + b.x, a.y + b.y, a.z + b.z)
  }

  function Sub(a: Vec3, b: Vec3): Vec3 {
    Vec3(a.x - b.x, a.y - b.y, a.z - b.z)
  }

  function Scale(a: Vec3, k: real): Vec3 {
    Vec3(a.x * k, a.y * k, a.z * k)
  }

  // The two lemmas below are solver hints for non-linear steps in other proofs,
  // not properties of the game.

  lemma MulNonNegative(a: real, b: real)
    requires a >= 0.0 && b >= 0.0
    ensures a * b >= 0.0
  {
  }

  lemma MulNonNegativeInt(a: int, b: int)
    requires a >= 0 && b >= 0
    ensures a * b >= 0
  {
  }

  /** Scaling twice is scaling by the product. */
  lemma ScaleScale(a: Vec3, j: real, k: real)
    ensures Scale(Scale(a, j), k) == Scale(a, j * k)
  {
    assert a.x * j * k == a.x * (j * k);
    assert a.y * j * k == a.y * (j * k);
    assert a.z * j * k == a.z * (j * k);
  }

  /** Two moves along the same vector add up to one move by the sum. */
  lemma AddScale(p: Vec3, a: Vec3, j: real, k: real)
    ensures Add(Add(p, Scale(a, j)), Scale(a, k)) == Add(p, Scale(a, j + k))
  {
    assert a.x * j + a.x * k == a.x * (j + k);
    assert a.y * j + a.y * k == a.y * (j + k);
    assert a.z * j + a.z * k == a.z * (j + k);
  }

  /** `Math.max` and `Math.min` on two numbers. */
  function Max(a: real, b: real): (r: real)
    ensures r >= a && r >= b && (r == a || r == b)
  {
    if a >= b then a else b
  }

  function Min(a: real, b: real): (r: real)
    ensures r <= a && r <= b && (r == a || r == b)
  {
    if a <= b then a else b
  }

  function Abs(a: real): (r: real)
    ensures r >= 0.0 && (r == a || r == -a)
  {
    if a < 0.0 then -a else a
  }

  /** b raised to the k-th power. */
  function Pow(b: real, k: nat): (r: real)
    ensures b >= 0.0 ==> r >= 0.0
    decreases k
  {
    if k == 0 then 1.0 else b * Pow(b, k - 1)
  }

  /** No element occurs twice: every entity in a live collection is a distinct object. */
  ghost predicate NoDup<T>(s: seq<T>) {
    forall i, j :: 0 <= i < j < |s| ==> s[i] != s[j]
  }

  /** The elements of `s` whose flag in `drop` is false, in their original order:
      what a backward loop that splices out every flagged entry leaves behind. */
  function Keep<T>(s: seq<T>, drop: seq<bool>): (r: seq<T>)
    requires |drop| == |s|
    ensures |r| <= |s|
    decreases |s|
  {
    if s == [] then []
    else (if drop[0] then [] else [s[0]]) + Keep(s[1..], drop[1..])
  }

  /** Filtering keeps exactly the unflagged elements: everything kept is an unflagged
      element of `s`, and no unflagged element is lost. */
  lemma {:induction false} KeepMembers<T>(s: seq<T>, drop: seq<bool>)
    requires |drop| == |s|
    ensures forall x :: x in Keep(s, drop) ==> exists i :: 0 <= i < |s| && s[i] == x && !drop[i]
    ensures forall i :: 0 <= i < |s| && !drop[i] ==> s[i] in Keep(s, drop)
    decreases |s|
  {
    if s != [] {
      KeepMembers(s[1..], drop[1..]);
      assert forall i :: 1 <= i < |s| ==> s[i] == s[1..][i - 1] && drop[i] == drop[1..][i - 1];
      forall x | x in Keep(s, drop)
        ensures exists i :: 0 <= i < |s| && s[i] == x && !drop[i]
      {
        if x in Keep(s[1..], drop[1..]) {
          var j :| 0 <= j < |s[1..]| && s[1..][j] == x && !drop[1..][j];
          assert s[j + 1] == x && !drop[j + 1];
        } else {
          assert s[0] == x && !drop[0];
        }
      }
    }
  }

  lemma {:induction false} KeepNoDup<T>(s: seq<T>, drop: seq<bool>)
    requires |drop| == |s| && NoDup(s)
    ensures NoDup(Keep(s, drop))
    decreases |s|
  {
    if s != [] {
      KeepNoDup(s[1..], drop[1..]);
      KeepMembers(s[1..], drop[1..]);
      var rest := Keep(s[1..], drop[1..]);
      assert forall k :: 0 <= k < |s[1..]| ==> s[1..][k] == s[k + 1] != s[0];
      assert s[0] !in rest;
      var r := (if drop[0] then [] else [s[0]]) + rest;
      assert forall k :: 0 < k < |r| ==> r[k] == rest[k - 1] || drop[0];
    }
  }

  /** `s` without its element at index i: JavaScript's `splice(i, 1)`. */
  function RemoveAt<T>(s: seq<T>, i: nat): (r: seq<T>)
    requires i < |s|
    ensures |r| == |s| - 1
    ensures forall k :: 0 <= k < i ==> r[k] == s[k]
    ensures forall k :: i <= k < |r| ==> r[k] == s[k + 1]
  {
    s[..i] + s[i + 1..]
  }

  /** Removing one flagged entry at position i of a suffix, as a backward splice does. */
  lemma KeepStep<T>(s: seq<T>, i: nat, d: bool, drop: seq<bool>)
    requires i < |s| && |drop| == |s| - i - 1
    ensures Keep(s[i..], [d] + drop) == (if d then [] else [s[i]]) + Keep(s[i + 1..], drop)
  {
    assert s[i..][1..] == s[i + 1..];
    assert ([d] + drop)[1..] == drop;
  }

  /** One step of a loop that walks `s` from the back and splices out flagged
      entries. With everything up to index i untouched and `rest` the filtered part
      after it, entry i is still in place, and removing it (or not) leaves the
      untouched part before i followed by the filtered part from i on, `next`. */
  lemma SpliceStep<T>(s: seq<T>, kept: seq<T>, i: nat, d: bool, rest: seq<T>, next: seq<T>)
    requires i < |s| && kept == s[..i + 1] + rest
    requires next == (if d then [] else [s[i]]) + rest
    ensures i < |kept| && kept[i] == s[i]
    ensures (if d then RemoveAt(kept, i) else kept) == s[..i] + next
  {
    var front := s[..i];
    assert s[..i + 1] == front + [s[i]];
    assert kept == front + ([s[i]] + rest);
    assert |front| == i;
    if d {
      assert kept[..i] == front;
      assert kept[i + 1..] == rest;
    } else {
      assert next == [s[i]] + rest;
    }
  }

  /** The whole step of such a loop in its own terms: with `kept` the untouched
      prefix up to index i followed by the filtered rest, splicing out entry i when
      flagged `d` gives the untouched prefix before i and the filtered part from i. */
  lemma SpliceKeep<T>(s: seq<T>, kept: seq<T>, i: nat, d: bool, drop: seq<bool>)
    requires i < |s| && |drop| == |s| - i - 1 && kept == s[..i + 1] + Keep(s[i + 1..], drop)
    ensures i < |kept| && kept[i] == s[i]
    ensures (if d then RemoveAt(kept, i) else kept) == s[..i] + Keep(s[i..], [d] + drop)
  {
    KeepStep(s, i, d, drop);
    SpliceStep(s, kept, i, d, Keep(s[i + 1..], drop), Keep(s[i..], [d] + drop));
  }

  /** One splice of a loop that walks `s` from the back: entry i of `kept` is
      removed when it is flagged `d`, which extends the filtered part by one. */
  method SpliceOut<T>(s: seq<T>, kept: seq<T>, i: nat, d: bool, ghost drop: seq<bool>) returns (r: seq<T>)
    requires i < |s| && |drop| == |s| - i - 1 && kept == s[..i + 1] + Keep(s[i + 1..], drop)
    ensures r == s[..i] + Keep(s[i..], [d] + drop)
  {
    SpliceKeep(s, kept, i, d, drop);
    r := kept;
    if d {
      r := RemoveAt(kept, i);
    }
  }

  /** Splicing out one entry keeps the others distinct. */
  lemma RemoveAtNoDup<T>(s: seq<T>, i: nat)
    requires i < |s| && NoDup(s)
    ensures NoDup(RemoveAt(s, i))
  {
    var r := RemoveAt(s, i);
    forall j, k | 0 <= j < k < |r|
      ensures r[j] != r[k]
    {
      var j', k' := if j < i then j else j + 1, if k < i then k else k + 1;
      assert r[j] == s[j'] && r[k] == s[k'];
    }
  }
}
