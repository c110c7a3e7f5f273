/**
 * The per-(Day, Category) aggregation: every record is tagged with the
 * category of its campaign, and the four metrics are summed per group.
 */
module Aggregation {
  import opened Wrappers
  import opened DayOrder
  import opened Campaigns

  /**
   * One row of the export. `spent` is the amount in cents: the export's
   * dollar amounts are modelled as exact integers.
   */
  datatype Record = Record(day: Day, campaign: string, spent: int, clicks: int, leads: int, messages: int)

  /** The four summed metrics of a group. */
  datatype Metrics = Metrics(spent: int, clicks: int, leads: int, messages: int)

  /** The four metric columns, for selecting one of them. */
  datatype Metric = AmountSpent | LinkClicks | Leads | Messaging

  /** The grouping key. */
  type Key = (Day, Category)

  const Zero := Metrics(0, 0, 0, 0)

  function Add(m: Metrics, n: Metrics): Metrics
  {
    Metrics(m.spent + n.spent, m.clicks + n.clicks, m.leads + n.leads, m.messages + n.messages)
  }

  function MetricsOf(r: Record): Metrics
  {
    Metrics(r.spent, r.clicks, r.leads, r.messages)
  }

  function Value(m: Metrics, f: Metric): int
  {
    match f
    case AmountSpent => m.spent
    case LinkClicks => m.clicks
    case Leads => m.leads
    case Messaging => m.messages
  }

  /** The group a record belongs to. */
  function KeyOf(lists: CampaignLists, r: Record): Key
  {
    (r.day, Classify(lists, r.campaign))
  }

  /** Field-wise sum of the records' metrics; the empty sum is zero. */
  function Sum(rs: seq<Record>): Metrics
  {
    if rs == [] then Zero else Add(Sum(rs[..|rs| - 1]), MetricsOf(rs[|rs| - 1]))
  }

  /** The records of group `k`, in input order: the reference for what a group holds. */
  function Members(lists: CampaignLists, rs: seq<Record>, k: Key): seq<Record>
  {
    if rs == [] then []
    else
      var last := rs[|rs| - 1];
      Members(lists, rs[..|rs| - 1], k) + (if KeyOf(lists, last) == k then [last] else [])
  }

  /** The records of one day, whatever their category. */
  function OnDay(rs: seq<Record>, d: Day): seq<Record>
  {
    if rs == [] then []
    else
      var last := rs[|rs| - 1];
      OnDay(rs[..|rs| - 1], d) + (if last.day == d then [last] else [])
  }

  /**
   * Group by (Day, Category) and sum: one entry per key that some record
   * has, built record by record.
   */
  function Grouped(lists: CampaignLists, rs: seq<Record>): map<Key, Metrics>
  {
    if rs == [] then map[]
    else
      var g := Grouped(lists, rs[..|rs| - 1]);
      var last := rs[|rs| - 1];
      var k := KeyOf(lists, last);
      g[k := if k in g then Add(g[k], MetricsOf(last)) else MetricsOf(last)]
  }

  /** One cell of the pivot: the sums of group (d, c), or nothing when that group is empty. */
  function Lookup(g: map<Key, Metrics>, d: Day, c: Category): Option<Metrics>
  {
    if (d, c) in g then Some(g[(d, c)]) else None
  }

  /** Whether the pivot has a column for category `c` at all. */
  predicate HasCategory(g: map<Key, Metrics>, c: Category)
  {
    exists k :: k in g && k.1 == c
  }

  // ---------------------------------------------------------------------------
  // Properties of the aggregation

  lemma {:induction false} SumAppend(u: seq<Record>, v: seq<Record>)
    ensures Sum(u + v) == Add(Sum(u), Sum(v))
    decreases |v|
  {
    if v != [] {
      var w := v[..|v| - 1];
      assert (u + v)[..|u + v| - 1] == u + w;
      assert (u + v)[|u + v| - 1] == v[|v| - 1];
      SumAppend(u, w);
    } else {
      assert u + v == u;
    }
  }

  lemma SumSnoc(u: seq<Record>, r: Record)
    ensures Sum(u + [r]) == Add(Sum(u), MetricsOf(r))
  {
  }

  lemma MembersSnoc(lists: CampaignLists, u: seq<Record>, r: Record, k: Key)
    ensures Members(lists, u + [r], k) == Members(lists, u, k) + (if KeyOf(lists, r) == k then [r] else [])
  {
  }

  lemma GroupedSnoc(lists: CampaignLists, u: seq<Record>, r: Record)
    ensures var g, k := Grouped(lists, u), KeyOf(lists, r);
      Grouped(lists, u + [r]) == g[k := if k in g then Add(g[k], MetricsOf(r)) else MetricsOf(r)]
  {
  }

  /** A group is non-empty exactly when some record carries its key. */
  lemma {:induction false} MembersNonEmpty(lists: CampaignLists, rs: seq<Record>, k: Key)
    ensures |Members(lists, rs, k)| > 0 <==> exists i :: 0 <= i < |rs| && KeyOf(lists, rs[i]) == k
    decreases |rs|
  {
    if rs != [] {
      var init, last := rs[..|rs| - 1], rs[|rs| - 1];
      assert rs == init + [last];
      MembersNonEmpty(lists, init, k);
      MembersSnoc(lists, init, last, k);
      if exists i :: 0 <= i < |init| && KeyOf(lists, init[i]) == k {
        var i :| 0 <= i < |init| && KeyOf(lists, init[i]) == k;
        assert rs[i] == init[i];
      }
      if exists i :: 0 <= i < |rs| && KeyOf(lists, rs[i]) == k {
        var i :| 0 <= i < |rs| && KeyOf(lists, rs[i]) == k;
        if i < |rs| - 1 {
          assert init[i] == rs[i];
        }
      }
    }
  }

  /** How many copies of `x` a group holds: all of the input's, if `x` carries the key, else none. */
  lemma {:induction false} MembersCount(lists: CampaignLists, rs: seq<Record>, k: Key, x: Record)
    ensures multiset(Members(lists, rs, k))[x] == if KeyOf(lists, x) == k then multiset(rs)[x] else 0
    decreases |rs|
  {
    if rs != [] {
      var init, last := rs[..|rs| - 1], rs[|rs| - 1];
      assert rs == init + [last];
      MembersCount(lists, init, k, x);
      MembersSnoc(lists, init, last, k);
    }
  }

  /**
   * Group by and sum: the groups present are exactly the keys some record
   * carries, and each group's metrics are the sums over its records.
   */
  lemma {:induction false} GroupedIsSumByKey(lists: CampaignLists, rs: seq<Record>, k: Key)
    ensures k in Grouped(lists, rs) <==> |Members(lists, rs, k)| > 0
    ensures k in Grouped(lists, rs) ==> Grouped(lists, rs)[k] == Sum(Members(lists, rs, k))
    decreases |rs|
  {
    if rs != [] {
      var init, last := rs[..|rs| - 1], rs[|rs| - 1];
      assert rs == init + [last];
      GroupedIsSumByKey(lists, init, k);
      GroupedSnoc(lists, init, last);
      MembersSnoc(lists, init, last, k);
      var ms := Members(lists, init, k);
      if KeyOf(lists, last) == k {
        SumSnoc(ms, last);
        if |ms| == 0 {
          assert ms == [];
        }
      } else {
        assert ms + [] == ms;
      }
    }
  }

  /** The same facts stated on the pivot cell and on the input records alone. */
  lemma LookupIsGroupSum(lists: CampaignLists, rs: seq<Record>, d: Day, c: Category)
    ensures Lookup(Grouped(lists, rs), d, c).None? <==>
      forall i :: 0 <= i < |rs| ==> KeyOf(lists, rs[i]) != (d, c)
    ensures Lookup(Grouped(lists, rs), d, c).Some? ==>
      Lookup(Grouped(lists, rs), d, c).value == Sum(Members(lists, rs, (d, c)))
  {
    GroupedIsSumByKey(lists, rs, (d, c));
    MembersNonEmpty(lists, rs, (d, c));
  }

  /** The pivot has a column for `c` exactly when some record is classified `c`. */
  lemma {:induction false} HasCategoryIffClassified(lists: CampaignLists, rs: seq<Record>, c: Category)
    ensures HasCategory(Grouped(lists, rs), c) <==>
      exists i :: 0 <= i < |rs| && Classify(lists, rs[i].campaign) == c
  {
    var g := Grouped(lists, rs);
    if HasCategory(g, c) {
      var k :| k in g && k.1 == c;
      GroupedIsSumByKey(lists, rs, k);
      MembersNonEmpty(lists, rs, k);
      var i :| 0 <= i < |rs| && KeyOf(lists, rs[i]) == k;
      assert Classify(lists, rs[i].campaign) == c;
    }
    if exists i :: 0 <= i < |rs| && Classify(lists, rs[i].campaign) == c {
      var i :| 0 <= i < |rs| && Classify(lists, rs[i].campaign) == c;
      var k := KeyOf(lists, rs[i]);
      MembersNonEmpty(lists, rs, k);
      GroupedIsSumByKey(lists, rs, k);
      assert k in g && k.1 == c;
    }
  }

  /** No record is lost or counted twice: a day's records split into its three category groups. */
  lemma {:induction false} DayIsPartitionedByCategory(lists: CampaignLists, rs: seq<Record>, d: Day)
    ensures multiset(OnDay(rs, d)) ==
      multiset(Members(lists, rs, (d, Website))) + multiset(Members(lists, rs, (d, InstagramFacebook)))
      + multiset(Members(lists, rs, (d, Other)))
    ensures |OnDay(rs, d)| ==
      |Members(lists, rs, (d, Website))| + |Members(lists, rs, (d, InstagramFacebook))|
      + |Members(lists, rs, (d, Other))|
    decreases |rs|
  {
    if rs != [] {
      DayIsPartitionedByCategory(lists, rs[..|rs| - 1], d);
    }
  }

  /** Adding one record to the input adds its metrics to its own group's sums only. */
  lemma SumMembersStep(lists: CampaignLists, rs: seq<Record>, k: Key)
    requires rs != []
    ensures Sum(Members(lists, rs, k)) ==
      if KeyOf(lists, rs[|rs| - 1]) == k then Add(Sum(Members(lists, rs[..|rs| - 1], k)), MetricsOf(rs[|rs| - 1]))
      else Sum(Members(lists, rs[..|rs| - 1], k))
  {
    var ms := Members(lists, rs[..|rs| - 1], k);
    if KeyOf(lists, rs[|rs| - 1]) == k {
      SumSnoc(ms, rs[|rs| - 1]);
    } else {
      assert ms + [] == ms;
    }
  }

  lemma SumOnDayStep(rs: seq<Record>, d: Day)
    requires rs != []
    ensures Sum(OnDay(rs, d)) ==
      if rs[|rs| - 1].day == d then Add(Sum(OnDay(rs[..|rs| - 1], d)), MetricsOf(rs[|rs| - 1]))
      else Sum(OnDay(rs[..|rs| - 1], d))
  {
    var ds := OnDay(rs[..|rs| - 1], d);
    if rs[|rs| - 1].day == d {
      SumSnoc(ds, rs[|rs| - 1]);
    } else {
      assert ds + [] == ds;
    }
  }

  lemma AddMovesLeft(a: Metrics, b: Metrics, c: Metrics, m: Metrics)
    ensures Add(Add(Add(a, b), c), m) == Add(Add(Add(a, m), b), c)
    ensures Add(Add(Add(b, a), c), m) == Add(Add(b, Add(a, m)), c)
    ensures Add(Add(Add(b, c), a), m) == Add(Add(b, c), Add(a, m))
  {
  }

  lemma AddSwap(a: Metrics, b: Metrics, m: Metrics)
    ensures Add(Add(a, m), b) == Add(Add(a, b), m)
  {
  }

  /** Hence the three category sums of a day add up to that day's unfiltered total. */
  lemma {:induction false} DayTotalIsSumOfCategories(lists: CampaignLists, rs: seq<Record>, d: Day)
    ensures Sum(OnDay(rs, d)) == Add(Add(Sum(Members(lists, rs, (d, Website))),
      Sum(Members(lists, rs, (d, InstagramFacebook)))), Sum(Members(lists, rs, (d, Other))))
    decreases |rs|
  {
    if rs != [] {
      var init, last := rs[..|rs| - 1], rs[|rs| - 1];
      DayTotalIsSumOfCategories(lists, init, d);
      var w, i, o := Sum(Members(lists, init, (d, Website))), Sum(Members(lists, init, (d, InstagramFacebook))),
        Sum(Members(lists, init, (d, Other)));
      var m, k := MetricsOf(last), KeyOf(lists, last);
      var w', i', o' := Sum(Members(lists, rs, (d, Website))), Sum(Members(lists, rs, (d, InstagramFacebook))),
        Sum(Members(lists, rs, (d, Other)));
      SumOnDayStep(rs, d);
      SumMembersStep(lists, rs, (d, Website));
      SumMembersStep(lists, rs, (d, InstagramFacebook));
      SumMembersStep(lists, rs, (d, Other));
      if last.day != d {
        assert w' == w && i' == i && o' == o;
      } else if k.1 == Website {
        assert w' == Add(w, m) && i' == i && o' == o;
        AddMovesLeft(w, i, o, m);
      } else if k.1 == InstagramFacebook {
        assert w' == w && i' == Add(i, m) && o' == o;
        AddMovesLeft(i, w, o, m);
      } else {
        assert w' == w && i' == i && o' == Add(o, m);
        AddMovesLeft(o, w, i, m);
      }
    }
  }

  /** Every metric of every record is at least 0, as in an advertising export. */
  ghost predicate NonNegative(rs: seq<Record>)
  {
    forall i :: 0 <= i < |rs| ==> rs[i].spent >= 0 && rs[i].clicks >= 0 && rs[i].leads >= 0 && rs[i].messages >= 0
  }

  /** Sums of non-negative records are non-negative. */
  lemma {:induction false} MembersNonNegative(lists: CampaignLists, rs: seq<Record>, k: Key)
    requires NonNegative(rs)
    ensures var m := Sum(Members(lists, rs, k));
      m.spent >= 0 && m.clicks >= 0 && m.leads >= 0 && m.messages >= 0
    decreases |rs|
  {
    if rs != [] {
      var init := rs[..|rs| - 1];
      assert NonNegative(init) by {
        forall i | 0 <= i < |init| ensures init[i] == rs[i] { }
      }
      MembersNonNegative(lists, init, k);
      SumMembersStep(lists, rs, k);
    }
  }

  /** Taking one record out of the middle of a sequence takes its metrics out of the sum. */
  lemma SumWithout(before: seq<Record>, r: Record, after: seq<Record>)
    ensures Sum(before + [r] + after) == Add(Sum(before + after), MetricsOf(r))
  {
    var m := MetricsOf(r);
    calc {
      Sum(before + [r] + after);
      { SumAppend(before + [r], after); }
      Add(Sum(before + [r]), Sum(after));
      { SumSnoc(before, r); }
      Add(Add(Sum(before), m), Sum(after));
      { AddSwap(Sum(before), Sum(after), m); }
      Add(Add(Sum(before), Sum(after)), m);
      { SumAppend(before, after); }
      Add(Sum(before + after), m);
    }
  }

  /** Removing the same record from two permutations of each other leaves permutations. */
  lemma MultisetWithout(a: seq<Record>, b: seq<Record>, j: int)
    requires a != [] && 0 <= j < |b| && b[j] == a[|a| - 1]
    requires multiset(a) == multiset(b)
    ensures multiset(a[..|a| - 1]) == multiset(b[..j] + b[j + 1..])
  {
    var before, after := b[..j], b[j + 1..];
    assert a == a[..|a| - 1] + [a[|a| - 1]];
    assert b == before + [b[j]] + after;
    calc {
      multiset(before + after);
      multiset(before) + multiset(after);
      multiset(b) - multiset{b[j]};
      multiset(a) - multiset{b[j]};
      multiset(a[..|a| - 1]);
    }
  }

  /** Summing does not depend on the order of the records. */
  lemma {:induction false} SumPermutation(a: seq<Record>, b: seq<Record>)
    requires multiset(a) == multiset(b)
    ensures Sum(a) == Sum(b)
    decreases |a|
  {
    if a == [] {
      assert |b| == |multiset(b)| == 0;
    } else {
      var last := a[|a| - 1];
      assert last in multiset(b) by {
        assert last in multiset(a);
      }
      var j :| 0 <= j < |b| && b[j] == last;
      MultisetWithout(a, b, j);
      SumPermutation(a[..|a| - 1], b[..j] + b[j + 1..]);
      assert b == b[..j] + [b[j]] + b[j + 1..];
      SumWithout(b[..j], b[j], b[j + 1..]);
    }
  }

  /** The groups do not depend on the order of the input rows. */
  lemma GroupedPermutation(lists: CampaignLists, rs: seq<Record>, rs': seq<Record>)
    requires multiset(rs) == multiset(rs')
    ensures Grouped(lists, rs) == Grouped(lists, rs')
  {
    var g, g' := Grouped(lists, rs), Grouped(lists, rs');
    forall k: Key ensures (k in g <==> k in g') && (k in g ==> g[k] == g'[k]) {
      var ms, ms' := Members(lists, rs, k), Members(lists, rs', k);
      forall x ensures multiset(ms)[x] == multiset(ms')[x] {
        MembersCount(lists, rs, k, x);
        MembersCount(lists, rs', k, x);
      }
      assert multiset(ms) == multiset(ms');
      assert |ms| == |multiset(ms)| == |multiset(ms')| == |ms'|;
      GroupedIsSumByKey(lists, rs, k);
      GroupedIsSumByKey(lists, rs', k);
      SumPermutation(ms, ms');
    }
  }

  /**
   * Two inputs that agree on every row's day and campaign, and on every
   * metric of the rows not classified `Other`.
   */
  ghost predicate SameExceptOther(lists: CampaignLists, rs: seq<Record>, rs': seq<Record>)
  {
    && |rs| == |rs'|
    && forall i :: 0 <= i < |rs| ==>
      && rs[i].day == rs'[i].day
      && rs[i].campaign == rs'[i].campaign
      && (Classify(lists, rs[i].campaign) != Other ==> rs[i] == rs'[i])
  }

  /**
   * The metrics of `Other` rows change only `Other` groups: both inputs have
   * the same groups, with the same sums for every other category.
   */
  lemma {:induction false} GroupedIgnoresOther(lists: CampaignLists, rs: seq<Record>, rs': seq<Record>, k: Key)
    requires SameExceptOther(lists, rs, rs')
    ensures k in Grouped(lists, rs) <==> k in Grouped(lists, rs')
    ensures k in Grouped(lists, rs) && k.1 != Other ==> Grouped(lists, rs)[k] == Grouped(lists, rs')[k]
    decreases |rs|
  {
    if rs != [] {
      var n := |rs| - 1;
      assert SameExceptOther(lists, rs[..n], rs'[..n]) by {
        forall i | 0 <= i < n
          ensures rs[..n][i].day == rs'[..n][i].day && rs[..n][i].campaign == rs'[..n][i].campaign
          ensures Classify(lists, rs[..n][i].campaign) != Other ==> rs[..n][i] == rs'[..n][i]
        {
          assert rs[..n][i] == rs[i] && rs'[..n][i] == rs'[i];
        }
      }
      GroupedIgnoresOther(lists, rs[..n], rs'[..n], k);
      assert KeyOf(lists, rs[n]) == KeyOf(lists, rs'[n]);
    }
  }
}
