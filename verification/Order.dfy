/** The order Go uses for strings, and sorted listings of a set of names.

    Go compares strings byte by byte. For valid UTF-8 that is the order of the
    code points, which is what is compared here. */
module Order {

  predicate Less(a: string, b: string)
  {
    if b == [] then false
    else if a == [] then true
    else if a[0] != b[0] then a[0] < b[0]
    else Less(a[1..], b[1..])
  }

  lemma {:induction false} Irreflexive(a: string)
    ensures !Less(a, a)
  {
    if a != [] { Irreflexive(a[1..]); }
  }

  lemma {:induction false} Total(a: string, b: string)
    ensures Less(a, b) || a == b || Less(b, a)
  {
    if a != [] && b != [] && a[0] == b[0] {
      Total(a[1..], b[1..]);
      assert a == [a[0]] + a[1..] && b == [b[0]] + b[1..];
    }
  }

  lemma {:induction false} Transitive(a: string, b: string, c: string)
    requires Less(a, b) && Less(b, c)
    ensures Less(a, c)
  {
    if a != [] && a[0] == b[0] && b[0] == c[0] {
      Transitive(a[1..], b[1..], c[1..]);
    }
  }

  ghost predicate Distinct<T>(s: seq<T>)
  {
    forall i, j | 0 <= i < j < |s| :: s[i] != s[j]
  }

  ghost predicate IsLeast(x: string, s: set<string>)
  {
    x in s && forall y | y in s :: x == y || Less(x, y)
  }

  lemma {:induction false} LeastExists(s: set<string>)
    requires s != {}
    ensures exists x :: IsLeast(x, s)
  {
    var a :| a in s;
    var rest := s - {a};
    if rest == {} {
      assert s == {a};
      assert IsLeast(a, s);
    } else {
      LeastExists(rest);
      var b :| IsLeast(b, rest);
      Total(a, b);
      if Less(b, a) {
        assert IsLeast(b, s);
      } else {
        forall y | y in s
          ensures a == y || Less(a, y)
        {
          if y != a && y != b { Transitive(a, b, y); }
        }
        assert IsLeast(a, s);
      }
    }
  }

  lemma LeastUnique(x: string, y: string, s: set<string>)
    requires IsLeast(x, s) && IsLeast(y, s)
    ensures x == y
  {
    if x != y {
      Transitive(x, y, x);
      Irreflexive(x);
    }
  }

  ghost function Least(s: set<string>): (x: string)
    requires s != {}
    ensures IsLeast(x, s)
  {
    LeastExists(s);
    var x :| IsLeast(x, s); x
  }

  ghost predicate Ascending(names: seq<string>)
  {
    forall i, j | 0 <= i < j < |names| :: Less(names[i], names[j])
  }

  /** The names of s in ascending order. */
  ghost function Sorted(s: set<string>): (names: seq<string>)
    ensures |names| == |s|
    ensures forall x :: x in names <==> x in s
    ensures Ascending(names)
  {
    if s == {} then [] else
      var x := Least(s);
      [x] + Sorted(s - {x})
  }

  lemma AscendingIsDistinct(names: seq<string>)
    requires Ascending(names)
    ensures Distinct(names)
  {
    forall i, j | 0 <= i < j < |names|
      ensures names[i] != names[j]
    {
      Irreflexive(names[i]);
    }
  }

  /** Only one ascending sequence lists a given set. */
  lemma {:induction false} SortedUnique(names: seq<string>, s: set<string>)
    requires Ascending(names)
    requires forall x :: x in names <==> x in s
    ensures names == Sorted(s)
  {
    if names == [] {
      assert forall x :: x in s ==> x in names;
      assert s == {};
    } else {
      var x := names[0];
      assert x in s;
      assert IsLeast(x, s) by {
        forall y | y in s
          ensures x == y || Less(x, y)
        {
          var i :| 0 <= i < |names| && names[i] == y;
        }
      }
      LeastUnique(x, Least(s), s);
      AscendingIsDistinct(names);
      forall y
        ensures y in names[1..] <==> y in s - {x}
      {
        if y in s - {x} {
          var i :| 0 <= i < |names| && names[i] == y;
          assert names[1..][i - 1] == y;
        }
      }
      SortedUnique(names[1..], s - {x});
      assert Sorted(s) == [x] + Sorted(s - {x});
      assert names == [x] + names[1..];
    }
  }

  /** Sorting as a program: repeatedly move the least remaining name. */
  method Sort(s: set<string>) returns (names: seq<string>)
    ensures names == Sorted(s)
  {
    names := [];
    var rest := s;
    while rest != {}
      invariant rest <= s
      invariant forall x :: x in names <==> x in s - rest
      invariant Ascending(names)
      invariant forall i, y | 0 <= i < |names| && y in rest :: Less(names[i], y)
      decreases rest
    {
      var least := LeastOf(rest);
      forall i, y | 0 <= i < |names + [least]| && y in rest - {least}
        ensures Less((names + [least])[i], y)
      {
      }
      names, rest := names + [least], rest - {least};
    }
    SortedUnique(names, s);
  }

  method LeastOf(s: set<string>) returns (least: string)
    requires s != {}
    ensures IsLeast(least, s)
  {
    least :| least in s;
    var rest := s - {least};
    while rest != {}
      invariant rest <= s && least in s
      invariant forall y | y in s - rest :: least == y || Less(least, y)
      decreases rest
    {
      var x :| x in rest;
      Total(x, least);
      if Less(x, least) {
        forall y | y in s - rest + {x}
          ensures x == y || Less(x, y)
        {
          if y != x && y != least { Transitive(x, least, y); }
        }
        least := x;
      }
      rest := rest - {x};
    }
  }

  lemma {:induction false} SmallerSet<T>(a: set<T>, b: set<T>)
    requires a <= b
    ensures |a| <= |b|
  {
    if a != {} {
      var x :| x in a;
      SmallerSet(a - {x}, b - {x});
    }
  }
}
