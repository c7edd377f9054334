/** The global order on lock names, and the sort-and-deduplicate step of a batch. */
module Names {

  /** Lexicographic order on strings. */
  predicate Less(a: string, b: string) {
    && b != ""
    && (a == "" || a[0] < b[0] || (a[0] == b[0] && Less(a[1..], b[1..])))
  }

  /** `a` comes before `b` where they first differ, or `a` is a proper beginning of `b`. */
  ghost predicate FirstDifference(a: string, b: string, k: nat) {
    k <= |a| && k < |b| && a[..k] == b[..k] && (k == |a| || a[k] < b[k])
  }

  /** The order is that of a dictionary. */
  lemma {:induction false} LessAtFirstDifference(a: string, b: string)
    ensures Less(a, b) <==> exists k: nat :: FirstDifference(a, b, k)
  {
    if a == "" {
      assert b != "" ==> FirstDifference(a, b, 0);
    } else if b != "" {
      if a[0] < b[0] {
        assert FirstDifference(a, b, 0);
      } else if a[0] == b[0] {
        LessAtFirstDifference(a[1..], b[1..]);
        if k: nat :| FirstDifference(a[1..], b[1..], k) {
          assert a[..k + 1] == [a[0]] + a[1..][..k] && b[..k + 1] == [b[0]] + b[1..][..k];
          assert FirstDifference(a, b, k + 1);
        }
        if k: nat :| FirstDifference(a, b, k) {
          assert k > 0 && a[1..][..k - 1] == a[..k][1..] && b[1..][..k - 1] == b[..k][1..];
          assert FirstDifference(a[1..], b[1..], k - 1);
        }
      } else {
        assert forall k: nat | 0 < k <= |a| && k <= |b| :: a[..k][0] == a[0] && b[..k][0] == b[0];
      }
    }
  }

  lemma {:induction false} LessTransitive(a: string, b: string, c: string)
    requires Less(a, b) && Less(b, c)
    ensures Less(a, c)
  {
    if a != "" && a[0] == b[0] == c[0] {
      LessTransitive(a[1..], b[1..], c[1..]);
    }
  }

  lemma {:induction false} LessTrichotomy(a: string, b: string)
    ensures Less(a, b) || Less(b, a) || a == b
    ensures !(Less(a, b) && Less(b, a))
    ensures a == b ==> !Less(a, b)
  {
    if a == "" || b == "" {
    } else {
      LessTrichotomy(a[1..], b[1..]);
      assert a == [a[0]] + a[1..] && b == [b[0]] + b[1..];
    }
  }

  ghost predicate Ordered(s: seq<string>) {
    forall i, j :: 0 <= i < j < |s| ==> !Less(s[j], s[i])
  }

  ghost predicate StrictlyIncreasing(s: seq<string>) {
    forall i, j :: 0 <= i < j < |s| ==> Less(s[i], s[j])
  }

  ghost function Elements(s: seq<string>): set<string> {
    set x | x in s
  }

  function Insert(x: string, s: seq<string>): (r: seq<string>)
    requires Ordered(s)
    ensures Ordered(r) && Elements(r) == Elements(s) + {x}
  {
    if s == [] then [x]
    else if !Less(s[0], x) then HeadIsLeast(x, s); [x] + s
    else
      assert s == [s[0]] + s[1..];
      InsertBehind(x, s[0], s[1..], Insert(x, s[1..]));
      [s[0]] + Insert(x, s[1..])
  }

  lemma InsertBehind(x: string, head: string, rest: seq<string>, r: seq<string>)
    requires Less(head, x) && Ordered(r) && Elements(r) == Elements(rest) + {x}
    requires forall y | y in rest :: !Less(y, head)
    ensures Ordered([head] + r) && Elements([head] + r) == Elements([head] + rest) + {x}
  {
    LessTrichotomy(head, x);
    assert forall y :: y in r <==> y in Elements(r);
    assert forall y :: y in rest <==> y in Elements(rest);
    assert forall y | y in r :: !Less(y, head);
    assert forall y :: y in [head] + r <==> y == head || y in r;
    assert forall y :: y in [head] + rest <==> y == head || y in rest;
  }

  lemma HeadIsLeast(x: string, s: seq<string>)
    requires Ordered(s) && s != [] && !Less(s[0], x)
    ensures forall i :: 0 <= i < |s| ==> !Less(s[i], x)
  {
    forall i | 0 <= i < |s| ensures !Less(s[i], x) {
      if Less(s[i], x) {
        LessTrichotomy(s[0], x);
        LessTrichotomy(s[0], s[i]);
        if s[0] != x { LessTransitive(s[i], x, s[0]); }
      }
    }
  }

  /** A sorted copy (the library sort that the batch relies on). */
  function Sort(s: seq<string>): (r: seq<string>)
    ensures Ordered(r) && Elements(r) == Elements(s)
  {
    if s == [] then [] else
      assert s == [s[0]] + s[1..];
      Insert(s[0], Sort(s[1..]))
  }

  lemma ElementsAppend(s: seq<string>, x: string)
    ensures Elements(s + [x]) == Elements(s) + {x}
  {
    assert forall y :: y in s + [x] <==> y in s || y == x;
  }

  lemma IncreasingAppend(s: seq<string>, x: string)
    requires StrictlyIncreasing(s)
    requires s != [] ==> Less(s[|s| - 1], x)
    ensures StrictlyIncreasing(s + [x])
  {
    forall i | 0 <= i < |s| ensures Less(s[i], x) {
      if i < |s| - 1 { LessTransitive(s[i], s[|s| - 1], x); }
    }
  }

  lemma {:induction false} IncreasingCardinality(s: seq<string>)
    requires StrictlyIncreasing(s)
    ensures |Elements(s)| == |s|
  {
    if s == [] {
      assert Elements(s) == {};
    } else {
      var front, x := s[..|s| - 1], s[|s| - 1];
      IncreasingCardinality(front);
      ElementsAppend(front, x);
      assert front + [x] == s;
      forall y | y in front ensures y != x { LessTrichotomy(y, x); }
    }
  }

  /** `kept` is what squeezing the first `i` elements of `sorted` leaves. */
  ghost predicate Squeezed(kept: seq<string>, sorted: seq<string>, i: nat)
    requires i <= |sorted|
  {
    && StrictlyIncreasing(kept)
    && Elements(kept) == Elements(sorted[..i])
    && (if i == 0 then kept == [] else kept != [] && kept[|kept| - 1] == sorted[i - 1])
  }

  lemma SqueezeStep(kept: seq<string>, sorted: seq<string>, i: nat)
    requires Ordered(sorted) && i < |sorted| && Squeezed(kept, sorted, i)
    ensures i > 0 && sorted[i] == sorted[i - 1] ==> Squeezed(kept, sorted, i + 1)
    ensures i == 0 || sorted[i] != sorted[i - 1] ==> Squeezed(kept + [sorted[i]], sorted, i + 1)
  {
    var n := sorted[i];
    assert sorted[..i + 1] == sorted[..i] + [n];
    ElementsAppend(sorted[..i], n);
    if i > 0 && n == sorted[i - 1] {
      assert n in kept;
      assert Elements(kept) + {n} == Elements(kept);
    } else {
      if i > 0 { LessTrichotomy(sorted[i - 1], n); }
      IncreasingAppend(kept, n);
      ElementsAppend(kept, n);
    }
  }

  /** Sorts a copy of `names` and squeezes out duplicates in place, keeping the
      first of each run of equal names. */
  method DedupeSorted(names: seq<string>) returns (out: seq<string>)
    ensures StrictlyIncreasing(out)
    ensures Elements(out) == Elements(names)
  {
    var sorted := Sort(names);
    var cp := new string[|sorted|](i requires 0 <= i < |sorted| => sorted[i]);
    var k := 0;
    var last := "";
    var first := true;
    for i := 0 to cp.Length
      invariant 0 <= k <= i
      invariant first <==> i == 0
      invariant !first ==> last == sorted[i - 1]
      invariant forall j :: i <= j < cp.Length ==> cp[j] == sorted[j]
      invariant Squeezed(cp[..k], sorted, i)
    {
      SqueezeStep(cp[..k], sorted, i);
      var n := cp[i];
      if first || n != last {
        ghost var kept := cp[..k];
        cp[k] := n;
        k := k + 1;
        assert cp[..k] == kept + [n];
        last := n;
        first := false;
      }
    }
    assert sorted[..cp.Length] == sorted;
    out := cp[..k];
  }

  /** The members of a set in ascending order (what an ORDER BY yields). */
  method SortedKeys(keys: set<string>) returns (out: seq<string>)
    ensures StrictlyIncreasing(out) && Elements(out) == keys
  {
    var todo, listed := keys, [];
    while todo != {}
      invariant Elements(listed) + todo == keys
      decreases |todo|
    {
      var k :| k in todo;
      ElementsAppend(listed, k);
      listed, todo := listed + [k], todo - {k};
    }
    out := DedupeSorted(listed);
  }
}
