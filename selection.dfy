/** The two list idioms the scripts use to pick their evidence: a list
    comprehension `[f(x) for x in s if keep(x)]`, and "the first element of
    smallest key", which is what both Python's `min(..., key=...)` and a
    running-minimum loop that replaces only on a strictly smaller key return. */
module Selection {

  /** Index of the first smallest key. The recursion scans left to right and
      moves to a later index only when that key is strictly smaller. */
  function FirstArgMin(keys: seq<real>): (k: nat)
    requires |keys| > 0
    ensures k < |keys|
    ensures forall j :: 0 <= j < |keys| ==> keys[k] <= keys[j]
    ensures forall j :: 0 <= j < k ==> keys[k] < keys[j]
    decreases |keys|
  {
    if |keys| == 1 then 0
    else
      var k := FirstArgMin(keys[..|keys| - 1]);
      if keys[|keys| - 1] < keys[k] then |keys| - 1 else k
  }

  /** Being a minimum that no earlier key ties determines the index. */
  lemma FirstArgMinUnique(keys: seq<real>, k: nat)
    requires k < |keys|
    requires forall j :: 0 <= j < |keys| ==> keys[k] <= keys[j]
    requires forall j :: 0 <= j < k ==> keys[k] < keys[j]
    ensures k == FirstArgMin(keys)
  {
  }

  /** `[f(x) for x in s if keep(x)]`. */
  function FilterMap<T, U(==)>(s: seq<T>, keep: T -> bool, f: T -> U): (r: seq<U>)
    ensures |r| <= |s|
    ensures r == [] <==> forall i :: 0 <= i < |s| ==> !keep(s[i])
    ensures forall j :: 0 <= j < |r| ==> exists i :: 0 <= i < |s| && keep(s[i]) && r[j] == f(s[i])
    ensures forall i :: 0 <= i < |s| && keep(s[i]) ==> f(s[i]) in r
    decreases |s|
  {
    if s == [] then []
    else
      var rest := FilterMap(s[1..], keep, f);
      assert forall i :: 1 <= i < |s| ==> s[i] == s[1..][i - 1];
      if keep(s[0]) then [f(s[0])] + rest else rest
  }

  /** The comprehension keeps the order of its input: filtering a
      concatenation concatenates the filtered parts. */
  lemma {:induction false} FilterMapAppend<T, U>(a: seq<T>, b: seq<T>, keep: T -> bool, f: T -> U)
    ensures FilterMap(a + b, keep, f) == FilterMap(a, keep, f) + FilterMap(b, keep, f)
    decreases |a|
  {
    if a == [] {
      assert a + b == b;
    } else {
      assert (a + b)[0] == a[0];
      assert (a + b)[1..] == a[1..] + b;
      FilterMapAppend(a[1..], b, keep, f);
    }
  }

  /** On a single element the comprehension keeps it exactly when `keep` does. */
  lemma FilterMapSingle<T, U>(x: T, keep: T -> bool, f: T -> U)
    ensures FilterMap([x], keep, f) == if keep(x) then [f(x)] else []
  {
    assert [x][1..] == [];
  }
}
