/**
 * The `Day` column is never parsed as a date: it keeps the text read from the
 * export, and the grouping orders those keys the way Python orders `str`
 * values, code point by code point, with a proper prefix first.
 */
module DayOrder {

  /** The raw text of the `Day` column. */
  type Day = string

  /** Python's `<` on strings: lexicographic by code point. */
  predicate Less(a: Day, b: Day)
    decreases |a|
  {
    if |a| == 0 then |b| > 0
    else if |b| == 0 then false
    else if a[0] != b[0] then a[0] < b[0]
    else Less(a[1..], b[1..])
  }

  lemma {:induction false} LessIrreflexive(a: Day)
    ensures !Less(a, a)
    decreases |a|
  {
    if |a| > 0 {
      LessIrreflexive(a[1..]);
    }
  }

  lemma {:induction false} LessAsymmetric(a: Day, b: Day)
    requires Less(a, b)
    ensures !Less(b, a)
    decreases |a|
  {
    if |a| > 0 && |b| > 0 && a[0] == b[0] {
      LessAsymmetric(a[1..], b[1..]);
    }
  }

  lemma {:induction false} LessTransitive(a: Day, b: Day, c: Day)
    requires Less(a, b) && Less(b, c)
    ensures Less(a, c)
    decreases |a|
  {
    if |a| > 0 && |b| > 0 && |c| > 0 && a[0] == b[0] && b[0] == c[0] {
      LessTransitive(a[1..], b[1..], c[1..]);
    }
  }

  /** Any two different keys are ordered one way or the other. */
  lemma {:induction false} LessTotal(a: Day, b: Day)
    requires a != b
    ensures Less(a, b) || Less(b, a)
    decreases |a|
  {
    if |a| > 0 && |b| > 0 && a[0] == b[0] {
      assert a == [a[0]] + a[1..] && b == [b[0]] + b[1..];
      LessTotal(a[1..], b[1..]);
    }
  }

  /** Ascending with no key twice. */
  ghost predicate StrictlySorted(s: seq<Day>)
  {
    forall i, j :: 0 <= i < j < |s| ==> Less(s[i], s[j])
  }

  /** A strictly sorted sequence holds every key once. */
  lemma StrictlySortedDistinct(s: seq<Day>, i: int, j: int)
    requires StrictlySorted(s)
    requires 0 <= i < |s| && 0 <= j < |s| && i != j
    ensures s[i] != s[j]
  {
    if i < j {
      LessIrreflexive(s[i]);
    } else {
      LessIrreflexive(s[j]);
    }
  }

  /** Adds a key to an ascending key list, keeping it ascending and duplicate-free. */
  function Insert(d: Day, s: seq<Day>): (r: seq<Day>)
    requires StrictlySorted(s)
    ensures StrictlySorted(r)
    ensures forall x :: x in r <==> x in s || x == d
  {
    if s == [] then [d]
    else if d == s[0] then s
    else if Less(d, s[0]) then
      assert forall j :: 0 < j < |s| ==> Less(d, s[j]) by {
        forall j | 0 < j < |s| ensures Less(d, s[j]) {
          LessTransitive(d, s[0], s[j]);
        }
      }
      [d] + s
    else
      LessTotal(d, s[0]);
      var rest := Insert(d, s[1..]);
      assert forall x :: x in rest ==> Less(s[0], x) by {
        forall x | x in rest ensures Less(s[0], x) {
          if x != d {
            var j :| 0 <= j < |s[1..]| && s[1..][j] == x;
            assert s[j + 1] == x;
          }
        }
      }
      [s[0]] + rest
  }

  /** Two strictly sorted sequences of the same keys are the same sequence. */
  lemma {:induction false} StrictlySortedUnique(s: seq<Day>, t: seq<Day>)
    requires StrictlySorted(s) && StrictlySorted(t)
    requires forall x :: x in s <==> x in t
    ensures s == t
    decreases |s|
  {
    assert t != [] ==> t[0] in t;
    if s != [] {
      assert s[0] in t;
      assert t != [];
      if s[0] != t[0] {
        assert t[0] in t;
        var i :| 0 <= i < |s| && s[i] == t[0];
        var j :| 0 <= j < |t| && t[j] == s[0];
        assert i > 0 && j > 0;
        LessAsymmetric(s[0], t[0]);
        assert false;
      }
      forall x ensures x in s[1..] <==> x in t[1..] {
        if x in s[1..] {
          var i :| 0 <= i < |s[1..]| && s[1..][i] == x;
          StrictlySortedDistinct(s, 0, i + 1);
          assert x in t && x != t[0];
          assert t == [t[0]] + t[1..];
        }
        if x in t[1..] {
          var j :| 0 <= j < |t[1..]| && t[1..][j] == x;
          StrictlySortedDistinct(t, 0, j + 1);
          assert x in s && x != s[0];
          assert s == [s[0]] + s[1..];
        }
      }
      StrictlySortedUnique(s[1..], t[1..]);
      assert s == [s[0]] + s[1..] && t == [t[0]] + t[1..];
    }
  }

  /** A strictly sorted sequence has as many elements as distinct keys. */
  lemma {:induction false} StrictlySortedCardinality(s: seq<Day>)
    requires StrictlySorted(s)
    ensures |set x | x in s| == |s|
    decreases |s|
  {
    if s != [] {
      StrictlySortedCardinality(s[1..]);
      assert s[0] !in s[1..] by {
        if s[0] in s[1..] {
          var i :| 0 <= i < |s[1..]| && s[1..][i] == s[0];
          StrictlySortedDistinct(s, 0, i + 1);
        }
      }
      assert (set x | x in s) == {s[0]} + (set x | x in s[1..]) by {
        assert s == [s[0]] + s[1..];
      }
    }
  }
}
