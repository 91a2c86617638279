/**
 The order in which keys are written: strings compared position by position, as
 sort.Strings does, and the one strictly increasing arrangement of a set of keys.
 */
module MrOrder {

  /** a and b first differ at position k, and a has the smaller character there. */
  ghost predicate FirstSmaller(a: string, b: string, k: int) {
    0 <= k < |a| && k < |b| && a[..k] == b[..k] && a[k] < b[k]
  }

  /** a comes before b: it is a proper prefix of b, or is smaller where they first differ. */
  ghost predicate Below(a: string, b: string) {
    (a <= b && a != b) || exists k :: FirstSmaller(a, b, k)
  }

  /** The comparison, position by position. */
  predicate LexLe(a: string, b: string) {
    a == [] || (b != [] && (a[0] < b[0] || (a[0] == b[0] && LexLe(a[1..], b[1..]))))
  }

  /** The comparison decides which string comes first. */
  lemma {:induction false} LexIsBelow(a: string, b: string)
    ensures Below(a, b) <==> LexLe(a, b) && a != b
  {
    if a != [] && b != [] {
      if a[0] == b[0] {
        LexIsBelow(a[1..], b[1..]);
        SameHead(a, b);
      } else if a[0] < b[0] {
        assert FirstSmaller(a, b, 0);
      } else {
        forall k
          ensures !FirstSmaller(a, b, k)
        {
          assert k > 0 && k < |a| && k < |b| ==> a[..k][0] == a[0] && b[..k][0] == b[0];
        }
      }
    }
  }

  lemma SameHead(a: string, b: string)
    requires a != [] && b != [] && a[0] == b[0]
    ensures Below(a, b) <==> Below(a[1..], b[1..])
    ensures a == b <==> a[1..] == b[1..]
  {
    assert a == [a[0]] + a[1..] && b == [b[0]] + b[1..];
    assert a <= b <==> a[1..] <= b[1..];
    if k :| FirstSmaller(a, b, k) {
      assert a[1..][..k - 1] == a[..k][1..] && b[1..][..k - 1] == b[..k][1..];
      assert FirstSmaller(a[1..], b[1..], k - 1);
    }
    if k :| FirstSmaller(a[1..], b[1..], k) {
      assert a[..k + 1] == [a[0]] + a[1..][..k] && b[..k + 1] == [b[0]] + b[1..][..k];
      assert FirstSmaller(a, b, k + 1);
    }
  }

  lemma {:induction false} LexTotal(a: string, b: string)
    ensures LexLe(a, b) || LexLe(b, a)
  {
    if a != [] && b != [] && a[0] == b[0] {
      LexTotal(a[1..], b[1..]);
    }
  }

  lemma {:induction false} LexAntisymmetric(a: string, b: string)
    requires LexLe(a, b) && LexLe(b, a)
    ensures a == b
  {
    if a != [] && b != [] {
      LexAntisymmetric(a[1..], b[1..]);
      assert a == [a[0]] + a[1..] && b == [b[0]] + b[1..];
    }
  }

  lemma {:induction false} LexTransitive(a: string, b: string, c: string)
    requires LexLe(a, b) && LexLe(b, c)
    ensures LexLe(a, c)
  {
    if a != [] && a[0] == b[0] == c[0] {
      LexTransitive(a[1..], b[1..], c[1..]);
    }
  }

  ghost predicate Increasing(s: seq<string>) {
    forall i, j :: 0 <= i < j < |s| ==> Below(s[i], s[j])
  }

  lemma IncreasingLex(s: seq<string>)
    ensures Increasing(s) <==> forall i, j :: 0 <= i < j < |s| ==> LexLe(s[i], s[j]) && s[i] != s[j]
  {
    hide LexLe, Below;
    forall i, j | 0 <= i < j < |s|
      ensures Below(s[i], s[j]) <==> LexLe(s[i], s[j]) && s[i] != s[j]
    {
      LexIsBelow(s[i], s[j]);
    }
  }

  ghost function Elements(s: seq<string>): set<string> {
    set x | x in s
  }

  lemma NoElements(s: seq<string>)
    ensures Elements(s) == {} <==> s == []
  {
    if s != [] {
      assert s[0] in Elements(s);
    }
  }

  /** A set of keys has one strictly increasing arrangement. */
  lemma {:induction false} OneArrangement(a: seq<string>, b: seq<string>)
    requires Increasing(a) && Increasing(b) && Elements(a) == Elements(b)
    ensures a == b
  {
    hide LexLe, Below;
    NoElements(a);
    NoElements(b);
    IncreasingLex(a);
    IncreasingLex(b);
    if a != [] {
      assert a[0] in Elements(a);
      var i :| 0 <= i < |b| && b[i] == a[0];
      assert b[0] in Elements(b);
      var j :| 0 <= j < |a| && a[j] == b[0];
      assert a[0] == b[0] by {
        if i > 0 && j > 0 {
          LexAntisymmetric(a[0], b[0]);
        }
      }
      TailElements(a);
      TailElements(b);
      OneArrangement(a[1..], b[1..]);
      assert a == [a[0]] + a[1..] && b == [b[0]] + b[1..];
    }
  }

  lemma TailElements(s: seq<string>)
    requires s != [] && Increasing(s)
    ensures Increasing(s[1..]) && Elements(s[1..]) == Elements(s) - {s[0]}
  {
    hide LexLe, Below;
    IncreasingLex(s);
    forall x | x in Elements(s) - {s[0]}
      ensures x in Elements(s[1..])
    {
      var i :| 0 <= i < |s| && s[i] == x;
      assert s[1..][i - 1] == x;
    }
  }

  /** Puts x where it belongs in an increasing sequence that lacks it. */
  method InsertKey(s: seq<string>, x: string) returns (r: seq<string>)
    requires Increasing(s) && x !in s
    ensures Increasing(r) && Elements(r) == Elements(s) + {x} && |r| == |s| + 1
  {
    var i := 0;
    while i < |s| && LexLe(s[i], x)
      invariant 0 <= i <= |s|
      invariant forall k :: 0 <= k < i ==> LexLe(s[k], x)
    {
      i := i + 1;
    }
    r := s[..i] + [x] + s[i..];
    InsertedIncreasing(s, x, i);
  }

  lemma InsertedIncreasing(s: seq<string>, x: string, i: nat)
    requires Increasing(s) && x !in s && i <= |s|
    requires forall k :: 0 <= k < i ==> LexLe(s[k], x)
    requires i < |s| ==> !LexLe(s[i], x)
    ensures var r := s[..i] + [x] + s[i..];
      Increasing(r) && Elements(r) == Elements(s) + {x}
  {
    hide LexLe, Below;
    var r := s[..i] + [x] + s[i..];
    IncreasingLex(s);
    IncreasingLex(r);
    forall k | i <= k < |s|
      ensures LexLe(x, s[k])
    {
      LexTotal(x, s[i]);
      if k > i {
        LexTransitive(x, s[i], s[k]);
      }
    }
    assert forall k :: 0 <= k < |r| ==> r[k] == if k < i then s[k] else if k == i then x else s[k - 1];
    forall a, b | 0 <= a < b < |r|
      ensures LexLe(r[a], r[b]) && r[a] != r[b]
    {
    }
    forall y | y in Elements(s)
      ensures y in Elements(r)
    {
      var k :| 0 <= k < |s| && s[k] == y;
      assert r[if k < i then k else k + 1] == y;
    }
    assert r[i] == x;
  }

  /** sort.Strings over keys that occur once each. */
  method SortKeys(keys: seq<string>) returns (r: seq<string>)
    requires forall i, j :: 0 <= i < j < |keys| ==> keys[i] != keys[j]
    ensures Increasing(r) && Elements(r) == Elements(keys)
  {
    r := [];
    var i := 0;
    while i < |keys|
      invariant 0 <= i <= |keys|
      invariant Increasing(r) && Elements(r) == Elements(keys[..i])
    {
      assert keys[i] !in Elements(keys[..i]);
      assert keys[i] !in r;
      r := InsertKey(r, keys[i]);
      assert keys[..i + 1] == keys[..i] + [keys[i]];
      i := i + 1;
    }
    assert keys[..|keys|] == keys;
  }

  /** The arrangement itself: the least key, then the rest. */
  ghost function SortedKeys(ks: set<string>): (r: seq<string>)
    ensures Increasing(r) && Elements(r) == ks
  {
    if ks == {} then [] else
      var least := Least(ks);
      var rest := SortedKeys(ks - {least});
      LeastFirst(least, rest);
      [least] + rest
  }

  lemma LeastFirst(x: string, rest: seq<string>)
    requires Increasing(rest) && forall y :: y in Elements(rest) ==> LexLe(x, y) && x != y
    ensures Increasing([x] + rest) && Elements([x] + rest) == Elements(rest) + {x}
  {
    hide LexLe, Below;
    var r := [x] + rest;
    IncreasingLex(rest);
    IncreasingLex(r);
    forall i, j | 0 <= i < j < |r|
      ensures LexLe(r[i], r[j]) && r[i] != r[j]
    {
      assert rest[j - 1] in Elements(rest);
      assert i > 0 ==> LexLe(rest[i - 1], rest[j - 1]) && rest[i - 1] != rest[j - 1];
    }
  }

  ghost function Least(ks: set<string>): (x: string)
    requires ks != {}
    ensures x in ks && forall y :: y in ks ==> LexLe(x, y)
  {
    LeastExists(ks);
    var x :| x in ks && forall y :: y in ks ==> LexLe(x, y);
    x
  }

  lemma {:induction false} LeastExists(ks: set<string>)
    requires ks != {}
    ensures exists x :: x in ks && forall y :: y in ks ==> LexLe(x, y)
  {
    hide LexLe;
    var a :| a in ks;
    LexTotal(a, a);
    if ks != {a} {
      var rest := ks - {a};
      LeastExists(rest);
      var b :| b in rest && forall y :: y in rest ==> LexLe(b, y);
      LexTotal(a, b);
      var least := if LexLe(a, b) then a else b;
      forall y | y in ks
        ensures LexLe(least, y)
      {
        if y != a && least == a {
          LexTransitive(a, b, y);
        }
      }
    }
  }
}
