/** The order of Python strings, and the sorted enumeration of a set of them. */
module Ordering {

  /** Comparison by code points, a proper prefix first. */
  predicate Less(a: string, b: string) {
    if b == "" then false
    else if a == "" then true
    else if a[0] != b[0] then a[0] < b[0]
    else Less(a[1..], b[1..])
  }

  lemma {:induction false} LessIsTotal(a: string, b: string)
    ensures a == b || Less(a, b) || Less(b, a)
  {
    if a != "" && b != "" && a[0] == b[0] {
      LessIsTotal(a[1..], b[1..]);
      if a[1..] == b[1..] {
        assert a == [a[0]] + a[1..] && b == [b[0]] + b[1..];
      }
    }
  }

  lemma {:induction false} LessIsStrict(a: string, b: string)
    ensures !(Less(a, b) && Less(b, a)) && !Less(a, a)
  {
    if a != "" {
      LessIsStrict(a[1..], if b != "" then b[1..] else "");
    }
  }

  lemma {:induction false} LessIsTransitive(a: string, b: string, c: string)
    requires Less(a, b) && Less(b, c)
    ensures Less(a, c)
  {
    if a != "" && a[0] == b[0] && b[0] == c[0] {
      LessIsTransitive(a[1..], b[1..], c[1..]);
    }
  }

  predicate Increasing(keys: seq<string>) {
    forall i, j | 0 <= i < j < |keys| :: Less(keys[i], keys[j])
  }

  predicate IsLeast(m: string, s: set<string>) {
    m in s && forall x | x in s :: x == m || Less(m, x)
  }

  lemma {:induction false} LeastExists(s: set<string>)
    requires s != {}
    ensures exists m :: IsLeast(m, s)
  {
    var x :| x in s;
    if s == {x} {
      assert IsLeast(x, s);
    } else {
      var rest := s - {x};
      LeastExists(rest);
      var m :| IsLeast(m, rest);
      LessIsTotal(m, x);
      var least := if Less(m, x) then m else x;
      forall y | y in s ensures y == least || Less(least, y) {
        if y != x && y != m && least == x {
          LessIsTransitive(x, m, y);
        }
      }
      assert IsLeast(least, s);
    }
  }

  lemma LeastIsUnique(a: string, b: string, s: set<string>)
    requires IsLeast(a, s) && IsLeast(b, s)
    ensures a == b
  {
    LessIsStrict(a, b);
  }

  /** `sorted(s)` for a set. */
  function SortedKeys(s: set<string>): (keys: seq<string>)
    ensures Increasing(keys)
    ensures forall x :: x in keys <==> x in s
    ensures |keys| == |s|
  {
    if s == {} then []
    else
      LeastExists(s);
      assert forall a, b | IsLeast(a, s) && IsLeast(b, s) :: a == b by {
        forall a, b | IsLeast(a, s) && IsLeast(b, s) ensures a == b { LeastIsUnique(a, b, s); }
      }
      var m :| m in s && IsLeast(m, s);
      [m] + SortedKeys(s - {m})
  }

  /** A set has one increasing enumeration. */
  lemma {:induction false} IncreasingIsUnique(a: seq<string>, b: seq<string>)
    requires Increasing(a) && Increasing(b)
    requires forall x :: x in a <==> x in b
    ensures a == b
    decreases |a|
  {
    assert b != [] ==> b[0] in b;
    if a != [] {
      assert a[0] in b;
      assert b[0] in a;
      var i :| 0 <= i < |b| && b[i] == a[0];
      var j :| 0 <= j < |a| && a[j] == b[0];
      LessIsStrict(a[0], b[0]);
      assert a[0] == b[0];
      forall x ensures x in a[1..] <==> x in b[1..] {
        if x in a[1..] {
          LessIsStrict(a[0], x);
          assert x in a && x in b;
        }
        if x in b[1..] {
          LessIsStrict(b[0], x);
          assert x in a && x in b;
        }
      }
      IncreasingIsUnique(a[1..], b[1..]);
      assert a == [a[0]] + a[1..] && b == [b[0]] + b[1..];
    }
  }

  /** `text.startswith(prefix)`. */
  predicate StartsWith(text: string, prefix: string) {
    |prefix| <= |text| && text[..|prefix|] == prefix
  }

  lemma {:induction false} PrefixIsLess(a: string, b: string)
    requires StartsWith(b, a) && a != b
    ensures Less(a, b)
  {
    if a != "" {
      assert b[1..][..|a| - 1] == a[1..];
      PrefixIsLess(a[1..], b[1..]);
    }
  }

  /** Between `a` and a string that continues `a` there are only strings that continue `a`. */
  lemma {:induction false} BetweenContinues(a: string, c: string, b: string)
    requires StartsWith(b, a) && Less(a, c) && (Less(c, b) || c == b)
    ensures StartsWith(c, a) && |c| > |a|
    ensures |b| > |a| && c[|a|] <= b[|a|]
  {
    if a == "" {
    } else {
      assert b[0] == a[0] && b[1..][..|a| - 1] == a[1..];
      assert c != "" && c[0] == a[0];
      BetweenContinues(a[1..], c[1..], b[1..]);
      assert c == [c[0]] + c[1..];
      assert c[..|a|] == [a[0]] + c[1..][..|a| - 1];
      assert a == [a[0]] + a[1..];
    }
  }
}
