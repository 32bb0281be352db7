/** Sequences used as the insertion-ordered `Set`, `Map` keys and arrays of the runtime. */
module Lists {
  datatype Option<+T> = None | Some(value: T)

  ghost predicate NoDup<T>(xs: seq<T>) {
    forall i, j :: 0 <= i < j < |xs| ==> xs[i] != xs[j]
  }

  // Array.indexOf
  function IndexOf<T(==)>(xs: seq<T>, x: T): (i: int)
    ensures -1 <= i < |xs|
    ensures i >= 0 ==> xs[i] == x && forall j :: 0 <= j < i ==> xs[j] != x
    ensures i < 0 <==> x !in xs
  {
    if xs == [] then -1
    else if xs[0] == x then 0
    else
      var i := IndexOf(xs[1..], x);
      if i < 0 then -1 else i + 1
  }

  // Set.delete, or Array.splice(indexOf(x), 1)
  function Without<T(==)>(xs: seq<T>, x: T): (r: seq<T>)
    ensures x !in xs ==> r == xs
    ensures x in xs ==> |r| == |xs| - 1
  {
    var i := IndexOf(xs, x);
    if i < 0 then xs else xs[..i] + xs[i + 1..]
  }

  lemma WithoutMembers<T>(xs: seq<T>, x: T)
    requires NoDup(xs)
    ensures NoDup(Without(xs, x))
    ensures forall y :: y in Without(xs, x) <==> y in xs && y != x
  {
    var i := IndexOf(xs, x);
    var r := Without(xs, x);
    if i >= 0 {
      forall y ensures y in r <==> y in xs && y != x {
        if y in xs && y != x {
          var j :| 0 <= j < |xs| && xs[j] == y;
          assert r[if j < i then j else j - 1] == y;
        }
        if y in r {
          var j :| 0 <= j < |r| && r[j] == y;
          assert y == xs[if j < i then j else j + 1];
        }
      }
    }
  }

  // Removing one element moves the elements behind it one place forward.
  lemma WithoutAt<T>(xs: seq<T>, x: T, i: nat)
    requires i < |Without(xs, x)|
    ensures var k := IndexOf(xs, x);
            var j := if k < 0 || i < k then i else i + 1;
            j < |xs| && Without(xs, x)[i] == xs[j]
  {
  }

  // Array.findIndex
  function FirstWhere<T>(xs: seq<T>, ok: T -> bool): (i: int)
    ensures -1 <= i < |xs|
    ensures i >= 0 ==> ok(xs[i])
    ensures forall j :: 0 <= j < (if i < 0 then |xs| else i) ==> !ok(xs[j])
  {
    if xs == [] then -1
    else if ok(xs[0]) then 0
    else
      var i := FirstWhere(xs[1..], ok);
      assert forall j :: 1 <= j < |xs| ==> xs[j] == xs[1..][j - 1];
      if i < 0 then -1 else i + 1
  }

  // Array.findLastIndex
  function LastWhere<T>(xs: seq<T>, ok: T -> bool): (i: int)
    ensures -1 <= i < |xs|
    ensures i >= 0 ==> ok(xs[i])
    ensures forall j :: i < j < |xs| ==> !ok(xs[j])
  {
    if xs == [] then -1
    else if ok(xs[|xs| - 1]) then |xs| - 1
    else LastWhere(xs[..|xs| - 1], ok)
  }

  lemma HasMember<T>(xs: seq<T>)
    ensures xs != [] ==> exists x :: x in xs
  {
    if xs != [] { assert xs[0] in xs; }
  }
}
