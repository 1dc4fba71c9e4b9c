/** Strictly sorted lists of strings: `sort.Strings` over the keys of a Go map. */
module Sorting {
  import opened Text

  predicate StrictlySorted(s: seq<string>) {
    forall i, j | 0 <= i < j < |s| :: Less(s[i], s[j])
  }

  function Elements(s: seq<string>): set<string> {
    set x | x in s
  }

  /** Places `x` before the first element that is not smaller. */
  function Insert(x: string, s: seq<string>): (r: seq<string>)
    ensures Elements(r) == Elements(s) + {x}
    ensures |r| == |s| + 1
  {
    if s == [] || Less(x, s[0]) then
      assert Elements([x] + s) == Elements(s) + {x};
      [x] + s
    else
      var rest := Insert(x, s[1..]);
      assert Elements([s[0]] + rest) == {s[0]} + Elements(rest);
      assert Elements(s) == {s[0]} + Elements(s[1..]) by { assert s == [s[0]] + s[1..]; }
      [s[0]] + rest
  }

  lemma {:induction false} InsertKeepsSorted(x: string, s: seq<string>)
    requires StrictlySorted(s) && x !in s
    ensures StrictlySorted(Insert(x, s))
  {
    if s == [] {
    } else if Less(x, s[0]) {
      forall j | 0 <= j < |s| ensures Less(x, s[j]) {
        if j > 0 {
          LessTransitive(x, s[0], s[j]);
        }
      }
    } else {
      LessTotal(x, s[0]);
      InsertKeepsSorted(x, s[1..]);
      var rest := Insert(x, s[1..]);
      forall j | 0 <= j < |rest| ensures Less(s[0], rest[j]) {
        assert rest[j] in Elements(rest);
        if rest[j] != x {
          assert rest[j] in Elements(s[1..]);
          var k :| 0 <= k < |s[1..]| && s[1..][k] == rest[j];
          assert s[k + 1] == rest[j];
        }
      }
    }
  }

  /** Two strictly sorted lists of the same elements are the same list. */
  lemma {:induction false} SortedUnique(a: seq<string>, b: seq<string>)
    requires StrictlySorted(a) && StrictlySorted(b)
    requires Elements(a) == Elements(b)
    ensures a == b
  {
    assert b != [] ==> b[0] in Elements(b);
    if a != [] {
      assert a[0] in Elements(a);
      assert b != [];
      assert b[0] in Elements(b);
      var i :| 0 <= i < |b| && b[i] == a[0];
      var j :| 0 <= j < |a| && a[j] == b[0];
      if i > 0 && j > 0 {
        LessTransitive(a[0], a[j], b[i]);
        LessIrreflexive(a[0]);
      }
      assert a[0] == b[0];
      TailElements(a);
      TailElements(b);
      SortedUnique(a[1..], b[1..]);
      assert a == [a[0]] + a[1..] && b == [b[0]] + b[1..];
    }
  }

  lemma TailElements(s: seq<string>)
    requires s != [] && StrictlySorted(s)
    ensures Elements(s[1..]) == Elements(s) - {s[0]}
  {
    if s[0] in s[1..] {
      var k :| 1 <= k < |s| && s[k] == s[0];
      assert Less(s[0], s[k]);
      LessIrreflexive(s[0]);
    }
    assert s == [s[0]] + s[1..];
  }

  lemma {:induction false} SortedSize(s: seq<string>)
    requires StrictlySorted(s)
    ensures |Elements(s)| == |s|
  {
    if s != [] {
      TailElements(s);
      assert s[0] in Elements(s);
      SortedSize(s[1..]);
    }
  }

  /** The distinct elements of `s` in order. */
  function SortUnique(s: seq<string>): (r: seq<string>)
    ensures StrictlySorted(r) && Elements(r) == Elements(s)
  {
    if s == [] then []
    else
      var rest := SortUnique(s[1..]);
      assert Elements(s) == {s[0]} + Elements(s[1..]) by { assert s == [s[0]] + s[1..]; }
      if s[0] in Elements(s[1..]) then rest
      else
        InsertKeepsSorted(s[0], rest);
        Insert(s[0], rest)
  }

  /** `s` without any `x`, in the same order. */
  function Without(s: seq<string>, x: string): (r: seq<string>)
    ensures Elements(r) == Elements(s) - {x}
  {
    if s == [] then []
    else
      assert Elements(s) == {s[0]} + Elements(s[1..]) by { assert s == [s[0]] + s[1..]; }
      var rest := Without(s[1..], x);
      if s[0] == x then rest
      else
        assert Elements([s[0]] + rest) == {s[0]} + Elements(rest);
        [s[0]] + rest
  }

  lemma {:induction false} InOrderExists(keys: set<string>)
    ensures exists s :: StrictlySorted(s) && Elements(s) == keys
  {
    if keys == {} {
      assert StrictlySorted([]) && Elements([]) == keys;
    } else {
      var key :| key in keys;
      InOrderExists(keys - {key});
      var s :| StrictlySorted(s) && Elements(s) == keys - {key};
      assert key !in s by {
        assert key in s ==> key in Elements(s);
      }
      InsertKeepsSorted(key, s);
      assert Elements(Insert(key, s)) == keys;
    }
  }

  /** The one strictly sorted list of the elements of a set. */
  ghost function InOrder(keys: set<string>): (s: seq<string>)
    ensures StrictlySorted(s) && Elements(s) == keys
  {
    InOrderExists(keys);
    var s :| StrictlySorted(s) && Elements(s) == keys;
    s
  }

  /** Collects the keys of a map in an order of its own choosing and sorts them. */
  method SortedKeys(keys: set<string>) returns (result: seq<string>)
    ensures StrictlySorted(result) && Elements(result) == keys && result == InOrder(keys)
  {
    result := [];
    var rest := keys;
    while rest != {}
      invariant StrictlySorted(result) && Elements(result) == keys - rest && rest <= keys
      decreases rest
    {
      var key :| key in rest;
      assert key in result ==> key in Elements(result);
      InsertKeepsSorted(key, result);
      result := Insert(key, result);
      rest := rest - {key};
    }
    SortedUnique(result, InOrder(keys));
  }
}
