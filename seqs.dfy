/** Sequences of column names used as ordered collections. */
module Seqs {
  /** No element occurs twice. */
  predicate Distinct(s: seq<string>)
  {
    forall i, j :: 0 <= i < j < |s| ==> Differ(s, i, j)
  }

  /** Positions `i` and `j` of `s` hold different elements. */
  predicate Differ(s: seq<string>, i: int, j: int)
    requires 0 <= i < |s| && 0 <= j < |s|
  {
    s[i] != s[j]
  }

  /** The elements of `s` that are in `keep`, in their order in `s`. */
  function Keep(s: seq<string>, keep: set<string>): (r: seq<string>)
    ensures forall x :: x in r <==> x in s && x in keep
    ensures |r| <= |s|
  {
    if |s| == 0 then []
    else if s[0] in keep then [s[0]] + Keep(s[1..], keep)
    else Keep(s[1..], keep)
  }

  /** The elements of `s` that are not in `drop`, in their order in `s`. */
  function Without(s: seq<string>, drop: set<string>): (r: seq<string>)
    ensures forall x :: x in r <==> x in s && x !in drop
    ensures |r| <= |s|
  {
    if |s| == 0 then []
    else if s[0] in drop then Without(s[1..], drop)
    else [s[0]] + Without(s[1..], drop)
  }

  /** Two different positions of a distinct sequence hold different elements. */
  lemma DistinctAt(s: seq<string>, i: int, j: int)
    requires Distinct(s) && 0 <= i < |s| && 0 <= j < |s| && i != j
    ensures s[i] != s[j]
  {
    if i < j {
      assert Differ(s, i, j);
    } else {
      assert Differ(s, j, i);
    }
  }

  /** The tail of a distinct sequence is distinct and lacks its head. */
  lemma DistinctTail(s: seq<string>)
    requires Distinct(s) && |s| > 0
    ensures Distinct(s[1..]) && s[0] !in s[1..]
  {
    forall i, j | 0 <= i < j < |s[1..]| ensures Differ(s[1..], i, j) {
      DistinctAt(s, i + 1, j + 1);
    }
    forall k | 0 <= k < |s[1..]| ensures s[1..][k] != s[0] {
      DistinctAt(s, k + 1, 0);
    }
  }

  /** A prefix of a distinct sequence is distinct and lacks the element that
      follows it. */
  lemma DistinctBefore(s: seq<string>, i: int)
    requires Distinct(s) && 0 <= i < |s|
    ensures Distinct(s[..i]) && s[i] !in s[..i]
  {
    forall j, k | 0 <= j < k < i ensures Differ(s[..i], j, k) {
      DistinctAt(s, j, k);
    }
    forall j | 0 <= j < i ensures s[..i][j] != s[i] {
      DistinctAt(s, j, i);
    }
  }

  /** A new element in front of a distinct sequence keeps it distinct. */
  lemma DistinctCons(x: string, t: seq<string>)
    requires Distinct(t) && x !in t
    ensures Distinct([x] + t)
  {
    forall i, j | 0 <= i < j < |[x] + t| ensures Differ([x] + t, i, j) {
      if i > 0 {
        DistinctAt(t, i - 1, j - 1);
      } else {
        assert ([x] + t)[j] == t[j - 1];
      }
    }
  }

  /** Filtering keeps the elements distinct. */
  lemma {:induction false} KeepDistinct(s: seq<string>, keep: set<string>)
    requires Distinct(s)
    ensures Distinct(Keep(s, keep))
  {
    if |s| > 0 {
      DistinctTail(s);
      KeepDistinct(s[1..], keep);
      if s[0] in keep {
        DistinctCons(s[0], Keep(s[1..], keep));
      }
    }
  }

  lemma {:induction false} WithoutDistinct(s: seq<string>, drop: set<string>)
    requires Distinct(s)
    ensures Distinct(Without(s, drop))
  {
    if |s| > 0 {
      DistinctTail(s);
      WithoutDistinct(s[1..], drop);
      if s[0] !in drop {
        DistinctCons(s[0], Without(s[1..], drop));
      }
    }
  }

  /** Keeping everything that is there changes nothing. */
  lemma {:induction false} KeepAll(s: seq<string>, keep: set<string>)
    requires forall x :: x in s ==> x in keep
    ensures Keep(s, keep) == s
  {
    if |s| > 0 {
      KeepAll(s[1..], keep);
    }
  }

  /** Removing nothing that is there changes nothing. */
  lemma {:induction false} WithoutNone(s: seq<string>, drop: set<string>)
    requires forall x :: x in s ==> x !in drop
    ensures Without(s, drop) == s
  {
    if |s| > 0 {
      WithoutNone(s[1..], drop);
    }
  }

  /** Filters depend only on the part of the set<string> that meets the sequence. */
  lemma {:induction false} KeepSameOn(s: seq<string>, a: set<string>, b: set<string>)
    requires forall x :: x in s ==> (x in a <==> x in b)
    ensures Keep(s, a) == Keep(s, b)
  {
    if |s| > 0 {
      KeepSameOn(s[1..], a, b);
    }
  }

  lemma {:induction false} WithoutSameOn(s: seq<string>, a: set<string>, b: set<string>)
    requires forall x :: x in s ==> (x in a <==> x in b)
    ensures Without(s, a) == Without(s, b)
  {
    if |s| > 0 {
      WithoutSameOn(s[1..], a, b);
    }
  }

  lemma {:induction false} KeepConcat(s: seq<string>, t: seq<string>, keep: set<string>)
    ensures Keep(s + t, keep) == Keep(s, keep) + Keep(t, keep)
  {
    if |s| == 0 {
      assert s + t == t;
    } else {
      assert (s + t)[1..] == s[1..] + t;
      KeepConcat(s[1..], t, keep);
    }
  }

  lemma {:induction false} WithoutConcat(s: seq<string>, t: seq<string>, drop: set<string>)
    ensures Without(s + t, drop) == Without(s, drop) + Without(t, drop)
  {
    if |s| == 0 {
      assert s + t == t;
    } else {
      assert (s + t)[1..] == s[1..] + t;
      WithoutConcat(s[1..], t, drop);
    }
  }

  /** The concatenation of a sequence of sequences. */
  function Flatten(parts: seq<seq<string>>): (r: seq<string>)
    ensures forall x :: x in r <==> exists i :: 0 <= i < |parts| && x in parts[i]
  {
    if |parts| == 0 then []
    else
      var rest := Flatten(parts[1..]);
      assert forall k :: 1 <= k < |parts| ==> parts[k] == parts[1..][k - 1];
      parts[0] + rest
  }

  /** Removing every element leaves nothing. */
  lemma {:induction false} WithoutAll(s: seq<string>, drop: set<string>)
    requires forall x :: x in s ==> x in drop
    ensures Without(s, drop) == []
  {
    if |s| > 0 {
      WithoutAll(s[1..], drop);
    }
  }

  lemma AppendAssoc<T>(a: seq<T>, b: seq<T>, c: seq<T>)
    ensures (a + b) + c == a + (b + c)
  {
  }

  /** Appending a nonempty sequence is appending its head, then its tail. */
  lemma AppendHead(a: seq<string>, b: seq<string>)
    requires |b| > 0
    ensures a + b == (a + [b[0]]) + b[1..]
  {
    assert b == [b[0]] + b[1..];
  }

  /** Two distinct sequences with no element in common concatenate to a distinct one. */
  lemma DistinctConcat(s: seq<string>, t: seq<string>)
    requires Distinct(s) && Distinct(t)
    ensures (forall x :: x in s ==> x !in t) ==> Distinct(s + t)
  {
    if forall x :: x in s ==> x !in t {
      forall i, j | 0 <= i < j < |s + t|
        ensures Differ(s + t, i, j)
      {
        if j < |s| {
          assert (s + t)[i] == s[i] && (s + t)[j] == s[j];
          DistinctAt(s, i, j);
        } else if i < |s| {
          assert (s + t)[i] == s[i] && (s + t)[j] == t[j - |s|];
          assert s[i] in s && t[j - |s|] in t;
        } else {
          assert (s + t)[i] == t[i - |s|] && (s + t)[j] == t[j - |s|];
          DistinctAt(t, i - |s|, j - |s|);
        }
      }
    }
  }

  /** The elements of `s`, as a set. */
  function Elems(s: seq<string>): (r: set<string>)
    ensures forall x :: x in r <==> x in s
  {
    set x | x in s
  }
}
