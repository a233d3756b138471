/** Python's `sorted()` on a list of strings: strings compare code point by
    code point, and a proper prefix sorts before the longer string. */
module KeyOrder {

  /** `a < b` on Python strings. */
  predicate Less(a: string, b: string)
    decreases |a|
  {
    if a == [] then b != []
    else if b == [] then false
    else if a[0] != b[0] then a[0] < b[0]
    else Less(a[1..], b[1..])
  }

  /** `k` is the first position where `a` and `b` differ. */
  predicate FirstDifference(a: string, b: string, k: int) {
    0 <= k < |a| && k < |b| && a[..k] == b[..k] && a[k] != b[k]
  }

  /** `Less` is the lexicographic order: either `a` is a proper prefix of `b`,
      or at the first position where they differ `a` has the smaller code point. */
  lemma {:induction false} LessIsLexicographic(a: string, b: string)
    ensures Less(a, b) <==> a < b || exists k :: FirstDifference(a, b, k) && a[k] < b[k]
    decreases |a|
  {
    if a != [] && b != [] {
      if a[0] != b[0] {
        assert FirstDifference(a, b, 0);
      } else {
        LessIsLexicographic(a[1..], b[1..]);
        assert a < b <==> a[1..] < b[1..] by {
          assert a == [a[0]] + a[1..] && b == [b[0]] + b[1..];
        }
        forall k | FirstDifference(a[1..], b[1..], k) ensures FirstDifference(a, b, k + 1) {
          assert a[..k + 1] == [a[0]] + a[1..][..k];
          assert b[..k + 1] == [b[0]] + b[1..][..k];
        }
        forall k | FirstDifference(a, b, k) ensures k > 0 && FirstDifference(a[1..], b[1..], k - 1) {
          assert a[1..][..k - 1] == a[..k][1..];
          assert b[1..][..k - 1] == b[..k][1..];
        }
      }
    }
  }

  lemma {:induction false} LessIrreflexive(a: string)
    ensures !Less(a, a)
    decreases |a|
  {
    if a != [] {
      LessIrreflexive(a[1..]);
    }
  }

  lemma {:induction false} LessTransitive(a: string, b: string, c: string)
    requires Less(a, b) && Less(b, c)
    ensures Less(a, c)
    decreases |a|
  {
    if a != [] && a[0] == b[0] && b[0] == c[0] {
      LessTransitive(a[1..], b[1..], c[1..]);
    }
  }

  lemma {:induction false} LessTotal(a: string, b: string)
    requires a != b
    ensures Less(a, b) || Less(b, a)
    decreases |a|
  {
    if a != [] && b != [] && a[0] == b[0] {
      assert a == [a[0]] + a[1..] && b == [b[0]] + b[1..];
      LessTotal(a[1..], b[1..]);
    }
  }

  lemma LessAsymmetric(a: string, b: string)
    requires Less(a, b)
    ensures !Less(b, a)
  {
    if Less(b, a) {
      LessTransitive(a, b, a);
      LessIrreflexive(a);
    }
  }

  /** `a <= b` on Python strings: nothing later in the order is smaller. */
  lemma NotLessIsAtMost(a: string, b: string)
    ensures !Less(b, a) <==> (a == b || Less(a, b))
  {
    if a == b {
      LessIrreflexive(a);
    } else if Less(a, b) {
      LessAsymmetric(a, b);
    } else {
      LessTotal(a, b);
    }
  }

  /** Ascending order, as `sorted()` leaves it. */
  predicate Sorted(s: seq<string>) {
    forall i, j :: 0 <= i < j < |s| ==> !Less(s[j], s[i])
  }

  /** `!Less` is transitive, so a sorted sequence's head is below every element. */
  lemma AtMostTransitive(a: string, b: string, c: string)
    requires !Less(b, a) && !Less(c, b)
    ensures !Less(c, a)
  {
    NotLessIsAtMost(a, b);
    NotLessIsAtMost(b, c);
    NotLessIsAtMost(a, c);
    if a != b && b != c {
      LessTransitive(a, b, c);
    }
  }

  /** Putting below a sorted sequence an element at most each of its members
      keeps it sorted. */
  lemma ConsSorted(y: string, s: seq<string>)
    requires Sorted(s)
    requires forall j :: 0 <= j < |s| ==> !Less(s[j], y)
    ensures Sorted([y] + s)
  {
    forall i, j | 0 <= i < j < |[y] + s| ensures !Less(([y] + s)[j], ([y] + s)[i]) {
      if i > 0 {
        assert ([y] + s)[i] == s[i - 1] && ([y] + s)[j] == s[j - 1];
      }
    }
  }

  lemma InsertAtFront(x: string, s: seq<string>)
    requires Sorted(s) && s != [] && !Less(s[0], x)
    ensures Sorted([x] + s)
  {
    forall j | 0 <= j < |s| ensures !Less(s[j], x) {
      if j > 0 { AtMostTransitive(x, s[0], s[j]); }
    }
    ConsSorted(x, s);
  }

  lemma InsertBehindHead(x: string, s: seq<string>, rest: seq<string>)
    requires Sorted(s) && s != [] && Less(s[0], x)
    requires Sorted(rest) && multiset(rest) == multiset(s[1..]) + multiset{x}
    ensures Sorted([s[0]] + rest)
  {
    forall j | 0 <= j < |rest| ensures !Less(rest[j], s[0]) {
      assert rest[j] in multiset(rest);
      if rest[j] == x {
        LessAsymmetric(s[0], x);
      } else {
        assert rest[j] in multiset(s[1..]);
        var k :| 0 <= k < |s[1..]| && s[1..][k] == rest[j];
        assert s[k + 1] == rest[j];
      }
    }
    ConsSorted(s[0], rest);
  }

  /** Inserts `x` into a sorted sequence before the first element above it. */
  function Insert(x: string, s: seq<string>): (r: seq<string>)
    requires Sorted(s)
    ensures Sorted(r)
    ensures multiset(r) == multiset(s) + multiset{x}
    decreases |s|
  {
    if s == [] then [x]
    else if !Less(s[0], x) then
      InsertAtFront(x, s);
      [x] + s
    else
      var rest := Insert(x, s[1..]);
      InsertBehindHead(x, s, rest);
      assert s == [s[0]] + s[1..];
      [s[0]] + rest
  }

  /** `sorted(keys)`: insertion sort, ascending. */
  function Sort(s: seq<string>): (r: seq<string>)
    ensures Sorted(r)
    ensures multiset(r) == multiset(s)
    ensures |r| == |s|
    decreases |s|
  {
    if s == [] then []
    else
      assert s == [s[0]] + s[1..];
      Insert(s[0], Sort(s[1..]))
  }

  /** The head of a sorted sequence is at most each of its elements. */
  lemma HeadIsLeast(a: seq<string>, x: string)
    requires Sorted(a) && x in a
    ensures !Less(x, a[0])
  {
    var i :| 0 <= i < |a| && a[i] == x;
    if i == 0 { LessIrreflexive(x); }
  }

  /** There is only one ascending arrangement of a multiset of strings: the
      order of the input to `sorted()` cannot be seen in its output. */
  lemma {:induction false} SortedUnique(a: seq<string>, b: seq<string>)
    requires Sorted(a) && Sorted(b)
    requires multiset(a) == multiset(b)
    ensures a == b
    decreases |a|
  {
    assert |a| == |b| by {
      assert |multiset(a)| == |a| && |multiset(b)| == |b|;
    }
    if a != [] {
      assert a[0] in multiset(b) && b[0] in multiset(a);
      HeadIsLeast(b, a[0]);
      HeadIsLeast(a, b[0]);
      NotLessIsAtMost(a[0], b[0]);
      assert a == [a[0]] + a[1..] && b == [b[0]] + b[1..];
      assert a[0] == b[0];
      assert multiset(a[1..]) == multiset(b[1..]) by {
        assert multiset(a) == multiset{a[0]} + multiset(a[1..]);
        assert multiset(b) == multiset{a[0]} + multiset(b[1..]);
        assert multiset(a[1..]) == multiset(a) - multiset{a[0]};
        assert multiset(b[1..]) == multiset(b) - multiset{a[0]};
      }
      SortedUnique(a[1..], b[1..]);
    }
  }
}
