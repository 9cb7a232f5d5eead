/**
 * The order in which the date series lists its dates: the default ordering of
 * a JavaScript `sort()` on strings, lexicographic on characters, where a
 * proper prefix comes first. Dates are stored as zero-padded ISO strings, so
 * this order is also chronological.
 */
module StringOrder {

  /** a comes strictly before b. */
  predicate Less(a: string, b: string)
    decreases |a|
  {
    if b == [] then false
    else if a == [] then true
    else if a[0] != b[0] then a[0] < b[0]
    else Less(a[1..], b[1..])
  }

  lemma {:induction false} LessIrreflexive(a: string)
    ensures !Less(a, a)
    decreases |a|
  {
    if a != [] { LessIrreflexive(a[1..]); }
  }

  lemma {:induction false} LessTransitive(a: string, b: string, c: string)
    requires Less(a, b) && Less(b, c)
    ensures Less(a, c)
    decreases |a|
  {
    if a != [] && a[0] == b[0] && b[0] == c[0] {
      LessTransitive(a[1..], b[1..], c[1..]);
    }
  }

  lemma {:induction false} LessTotal(a: string, b: string)
    ensures a == b || Less(a, b) || Less(b, a)
    decreases |a|
  {
    if a != [] && b != [] && a[0] == b[0] {
      LessTotal(a[1..], b[1..]);
      if a[1..] == b[1..] {
        assert a == [a[0]] + a[1..] && b == [b[0]] + b[1..];
      }
    }
  }

  /** Each element strictly before the next, hence no element twice. */
  predicate StrictlySorted(s: seq<string>) {
    forall i, j :: 0 <= i < j < |s| ==> Less(s[i], s[j])
  }

  lemma StrictlySortedDistinct(s: seq<string>)
    requires StrictlySorted(s)
    ensures forall i, j :: 0 <= i < j < |s| ==> s[i] != s[j]
  {
    forall i, j | 0 <= i < j < |s| ensures s[i] != s[j] {
      LessIrreflexive(s[i]);
    }
  }

  /** Places d into a strictly sorted sequence, unless it is already there. */
  function Insert(s: seq<string>, d: string): (r: seq<string>)
    requires StrictlySorted(s)
    ensures StrictlySorted(r)
    ensures (set x | x in r) == (set x | x in s) + {d}
    decreases |s|
  {
    if s == [] then [d]
    else if d == s[0] then s
    else if Less(d, s[0]) then
      assert StrictlySorted([d] + s) by {
        forall j | 0 < j < |s| { LessTransitive(d, s[0], s[j]); }
      }
      [d] + s
    else
      var rest := Insert(s[1..], d);
      assert (set x | x in rest) == (set x | x in s[1..]) + {d};
      assert StrictlySorted([s[0]] + rest) by {
        LessTotal(d, s[0]);
        forall j | 0 <= j < |rest| ensures Less(s[0], rest[j]) {
          assert rest[j] in (set x | x in s[1..]) + {d};
          if rest[j] != d {
            assert rest[j] in s[1..];
            var k :| 0 <= k < |s[1..]| && s[1..][k] == rest[j];
            assert s[k + 1] == rest[j];
          }
        }
      }
      assert s == [s[0]] + s[1..];
      assert (set x | x in [s[0]] + rest) == {s[0]} + (set x | x in rest);
      assert (set x | x in s) == {s[0]} + (set x | x in s[1..]);
      [s[0]] + rest
  }
}
