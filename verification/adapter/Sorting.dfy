/** Sets of strings in ascending order of their characters. */
module Sorting {

  predicate AtMost(a: string, b: string) {
    a == [] || (b != [] && (a[0] < b[0] || (a[0] == b[0] && AtMost(a[1..], b[1..]))))
  }

  lemma {:induction false} AtMostTotal(a: string, b: string)
    ensures AtMost(a, b) || AtMost(b, a)
    ensures AtMost(a, b) && AtMost(b, a) ==> a == b
  {
    if a != [] && b != [] {
      AtMostTotal(a[1..], b[1..]);
      if a[0] == b[0] && a[1..] == b[1..] {
        assert a == [a[0]] + a[1..] && b == [b[0]] + b[1..];
      }
    }
  }

  lemma {:induction false} AtMostTransitive(a: string, b: string, c: string)
    requires AtMost(a, b) && AtMost(b, c)
    ensures AtMost(a, c)
  {
    if a != [] && a[0] == b[0] == c[0] { AtMostTransitive(a[1..], b[1..], c[1..]); }
  }

  ghost predicate Ascending(s: seq<string>) {
    forall i, j :: 0 <= i < j < |s| ==> AtMost(s[i], s[j]) && s[i] != s[j]
  }

  ghost predicate Enumerates(s: seq<string>, keys: set<string>) {
    (forall i :: 0 <= i < |s| ==> s[i] in keys) && (forall k :: k in keys ==> k in s)
  }

  ghost predicate SortedAs(s: seq<string>, keys: set<string>) {
    Ascending(s) && Enumerates(s, keys)
  }

  /** A set has only one ascending enumeration. */
  lemma {:induction false} SortedOnce(s: seq<string>, t: seq<string>, keys: set<string>)
    requires SortedAs(s, keys) && SortedAs(t, keys)
    ensures s == t
    decreases |s|
  {
    if s == [] || t == [] {
      SortedEmpty(s, keys);
      SortedEmpty(t, keys);
    } else {
      var m, n := |s| - 1, |t| - 1;
      LastIsGreatest(s, keys, t[n]);
      LastIsGreatest(t, keys, s[m]);
      AtMostTotal(s[m], t[n]);
      ButLast(s, keys);
      ButLast(t, keys);
      SortedOnce(s[..m], t[..n], keys - {s[m]});
      assert s == s[..m] + [s[m]] && t == t[..n] + [t[n]];
    }
  }

  lemma SortedEmpty(s: seq<string>, keys: set<string>)
    requires SortedAs(s, keys)
    ensures s == [] <==> keys == {}
  {
    if s != [] { assert s[0] in keys; }
    if keys != {} {
      var k :| k in keys;
      assert k in s;
    }
  }

  lemma LastIsGreatest(s: seq<string>, keys: set<string>, k: string)
    requires SortedAs(s, keys) && k in keys
    ensures s != [] && AtMost(k, s[|s| - 1])
  {
    var i :| 0 <= i < |s| && s[i] == k;
    AtMostTotal(k, k);
  }

  lemma ButLast(s: seq<string>, keys: set<string>)
    requires SortedAs(s, keys) && s != []
    ensures SortedAs(s[..|s| - 1], keys - {s[|s| - 1]})
  {
    var n := |s| - 1;
    forall k | k in keys && k != s[n] ensures k in s[..n] {
      var i :| 0 <= i < |s| && s[i] == k;
      assert s[..n][i] == k;
    }
  }

  /** The place of a new key, and the enumeration with it. */
  method Insert(s: seq<string>, ghost keys: set<string>, k: string) returns (t: seq<string>)
    requires SortedAs(s, keys) && k !in keys
    ensures SortedAs(t, keys + {k})
  {
    var i := |s|;
    while i > 0 && !AtMost(s[i - 1], k)
      invariant 0 <= i <= |s|
      invariant forall j :: i <= j < |s| ==> !AtMost(s[j], k)
    {
      i := i - 1;
    }
    t := s[..i] + [k] + s[i..];
    Inserted(s, keys, k, i);
  }

  lemma PlaceRight(s: seq<string>, keys: set<string>, k: string, i: nat, j: nat)
    requires SortedAs(s, keys) && k !in keys && i <= |s| && j < |s|
    requires forall j :: i <= j < |s| ==> !AtMost(s[j], k)
    requires i > 0 ==> AtMost(s[i - 1], k)
    ensures s[j] != k && if j < i then AtMost(s[j], k) else AtMost(k, s[j])
  {
    AtMostTotal(s[j], k);
    assert s[j] in keys;
    if j < i - 1 { AtMostTransitive(s[j], s[i - 1], k); }
  }

  lemma InsertedAscending(s: seq<string>, k: string, i: nat)
    requires Ascending(s) && i <= |s|
    requires forall j :: 0 <= j < |s| ==> s[j] != k && if j < i then AtMost(s[j], k) else AtMost(k, s[j])
    ensures Ascending(s[..i] + [k] + s[i..])
  {
    hide AtMost;
    var t := s[..i] + [k] + s[i..];
    assert forall j :: 0 <= j < |t| ==> t[j] == if j < i then s[j] else if j == i then k else s[j - 1];
  }

  lemma InsertedEnumerates(s: seq<string>, keys: set<string>, k: string, i: nat)
    requires Enumerates(s, keys) && i <= |s|
    ensures Enumerates(s[..i] + [k] + s[i..], keys + {k})
  {
    var t := s[..i] + [k] + s[i..];
    assert forall j :: 0 <= j < |t| ==> t[j] == if j < i then s[j] else if j == i then k else s[j - 1];
    forall x | x in keys + {k} ensures x in t {
      if x != k && x in keys {
        var j :| 0 <= j < |s| && s[j] == x;
        assert t[if j < i then j else j + 1] == x;
      } else {
        assert t[i] == k;
      }
    }
  }

  lemma Inserted(s: seq<string>, keys: set<string>, k: string, i: nat)
    requires SortedAs(s, keys) && k !in keys && i <= |s|
    requires forall j :: i <= j < |s| ==> !AtMost(s[j], k)
    requires i > 0 ==> AtMost(s[i - 1], k)
    ensures SortedAs(s[..i] + [k] + s[i..], keys + {k})
  {
    hide AtMost;
    forall j | 0 <= j < |s| ensures s[j] != k && if j < i then AtMost(s[j], k) else AtMost(k, s[j]) {
      PlaceRight(s, keys, k, i, j);
    }
    InsertedAscending(s, k, i);
    InsertedEnumerates(s, keys, k, i);
  }

  method Sort(keys: set<string>) returns (s: seq<string>)
    ensures s == Sorted(keys)
  {
    s := [];
    var rest := keys;
    ghost var done: set<string> := {};
    while rest != {}
      invariant rest <= keys && done == keys - rest && SortedAs(s, done)
    {
      var k :| k in rest;
      s := Insert(s, done, k);
      done := done + {k};
      rest := rest - {k};
    }
    assert done == keys;
    SortedOnce(s, Sorted(keys), keys);
  }

  lemma {:induction false} SortedExists(keys: set<string>)
    ensures exists s :: SortedAs(s, keys)
  {
    if keys == {} {
      assert SortedAs([], keys);
    } else {
      var k :| k in keys;
      SortedExists(keys - {k});
      var s :| SortedAs(s, keys - {k});
      var i := Place(s, k);
      Inserted(s, keys - {k}, k, i);
      assert keys - {k} + {k} == keys;
      assert SortedAs(s[..i] + [k] + s[i..], keys);
    }
  }

  ghost function Place(s: seq<string>, k: string): (i: nat)
    ensures i <= |s| && (forall j :: i <= j < |s| ==> !AtMost(s[j], k)) && (i > 0 ==> AtMost(s[i - 1], k))
  {
    if s == [] then 0
    else if AtMost(s[|s| - 1], k) then |s|
    else Place(s[..|s| - 1], k)
  }

  ghost function Sorted(keys: set<string>): (s: seq<string>)
    ensures SortedAs(s, keys)
  {
    SortedExists(keys);
    var s :| SortedAs(s, keys);
    s
  }
}
