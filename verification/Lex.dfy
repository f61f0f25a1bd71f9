// Lexicographic order on strings, the order of Go's string comparison and of slices.Sort.
module Lex {
  predicate Less(a: string, b: string) {
    if b == "" then false
    else if a == "" then true
    else a[0] < b[0] || (a[0] == b[0] && Less(a[1..], b[1..]))
  }

  lemma {:induction false} Irreflexive(a: string)
    ensures !Less(a, a)
  {
    if a != "" {
      Irreflexive(a[1..]);
    }
  }

  lemma {:induction false} Transitive(a: string, b: string, c: string)
    requires Less(a, b) && Less(b, c)
    ensures Less(a, c)
  {
    if a != "" && a[0] == b[0] && b[0] == c[0] {
      Transitive(a[1..], b[1..], c[1..]);
    }
  }

  lemma {:induction false} Total(a: string, b: string)
    ensures Less(a, b) || a == b || Less(b, a)
  {
    if a != "" && b != "" && a[0] == b[0] {
      Total(a[1..], b[1..]);
      assert a == [a[0]] + a[1..] && b == [b[0]] + b[1..];
    }
  }

  lemma Asymmetric(a: string, b: string)
    requires Less(a, b)
    ensures !Less(b, a)
  {
  }

  predicate Ascending(s: seq<string>) { forall i, j :: 0 <= i < j < |s| ==> Less(s[i], s[j]) }

  predicate IsLeast(keys: set<string>, k: string) { k in keys && forall j :: j in keys && j != k ==> Less(k, j) }

  lemma {:induction false} LeastExists(keys: set<string>)
    requires keys != {}
    ensures exists k :: IsLeast(keys, k)
  {
    var x :| x in keys;
    var rest := keys - {x};
    assert forall j :: j in keys && j != x ==> j in rest;
    if rest == {} {
      assert IsLeast(keys, x);
    } else {
      LeastExists(rest);
      var k :| IsLeast(rest, k);
      Total(x, k);
      if Less(x, k) {
        forall j | j in keys && j != x ensures Less(x, j) {
          if j != k {
            Transitive(x, k, j);
          }
        }
        assert IsLeast(keys, x);
      } else {
        assert IsLeast(keys, k);
      }
    }
  }

  lemma LeastIsUnique(keys: set<string>, a: string, b: string)
    requires IsLeast(keys, a) && IsLeast(keys, b)
    ensures a == b
  {
    if a != b {
      Asymmetric(a, b);
    }
  }

  function Least(keys: set<string>): (k: string)
    requires keys != {}
    ensures IsLeast(keys, k)
  {
    LeastExists(keys);
    assert forall a, b :: IsLeast(keys, a) && IsLeast(keys, b) ==> a == b by {
      forall a, b | IsLeast(keys, a) && IsLeast(keys, b) ensures a == b { LeastIsUnique(keys, a, b); }
    }
    var k :| k in keys && IsLeast(keys, k);
    k
  }

  // The keys in ascending order.
  function Sorted(keys: set<string>): (r: seq<string>)
    ensures Ascending(r) && |r| == |keys| && forall k :: k in r <==> k in keys
  {
    if keys == {} then [] else [Least(keys)] + Sorted(keys - {Least(keys)})
  }

  // A set has one ascending listing.
  lemma {:induction false} AscendingIsUnique(a: seq<string>, b: seq<string>)
    requires Ascending(a) && Ascending(b) && forall k :: k in a <==> k in b
    ensures a == b
  {
    HeadIsMember(b);
    if a != [] {
      assert a[0] in b;
      SameHead(a, b);
      assert b[0] == a[0];
      forall k ensures k in a[1..] <==> k in b[1..] {
        TailMembers(a, k);
        TailMembers(b, k);
      }
      AscendingIsUnique(a[1..], b[1..]);
      assert a == [a[0]] + a[1..] && b == [b[0]] + b[1..];
    }
  }

  lemma HeadIsMember(a: seq<string>)
    ensures a == [] || a[0] in a
  {
  }

  lemma TailMembers(a: seq<string>, k: string)
    requires Ascending(a) && a != []
    ensures k in a[1..] <==> k in a && k != a[0]
  {
    Irreflexive(a[0]);
    if k in a && k != a[0] {
      var i :| 0 <= i < |a| && a[i] == k;
      assert a[1..][i - 1] == k;
    }
  }

  lemma SameHead(a: seq<string>, b: seq<string>)
    requires Ascending(a) && Ascending(b) && a != [] && b != [] && a[0] in b && b[0] in a
    ensures a[0] == b[0]
  {
    if a[0] != b[0] {
      Asymmetric(a[0], b[0]);
    }
  }
}
