/**
 * The Haircheck report: the per-(Day, Category) sums pivoted to one row per
 * day, with the derived Instagram&Facebook total and the fixed ten columns.
 */
module Report {
  import opened Wrappers
  import opened DayOrder
  import opened Campaigns
  import opened Aggregation

  /** A metric cell of the report: a sum, or `'N/A'` where the pivot left no value. */
  datatype Cell = NA | Num(n: int)

  /** One output row: the ten report columns, in their order in the sheet. */
  datatype Row = Row(
    day: Day,
    igfbAmountSpent: Cell,
    igfbLinkClicks: Cell,
    igfbLeads: Cell,
    igfbMessagingConversationsStarted: Cell,
    websiteMessagingConversationsStarted: Cell,
    igfbTotalImpressions: Cell,
    websiteAmountSpent: Cell,
    websiteLinkClicks: Cell,
    websiteLeads: Cell)

  /** The run aborts when a column the report reads was never created by the pivot. */
  datatype ReportError = MissingColumn(column: string)

  /** The set of distinct `Day` values of the input. */
  ghost function DistinctDays(rs: seq<Record>): set<Day>
  {
    set i | 0 <= i < |rs| :: rs[i].day
  }

  /** The pivot's index: every day of the input once, ascending. */
  function Days(rs: seq<Record>): (ds: seq<Day>)
    ensures StrictlySorted(ds)
    ensures forall d :: d in ds <==> d in DistinctDays(rs)
  {
    if rs == [] then []
    else
      var init, last := rs[..|rs| - 1], rs[|rs| - 1];
      var ds := Insert(last.day, Days(init));
      assert forall d :: d in DistinctDays(rs) <==> d == last.day || d in DistinctDays(init) by {
        forall d ensures d in DistinctDays(rs) <==> d == last.day || d in DistinctDays(init) {
          if d in DistinctDays(init) {
            var i :| 0 <= i < |init| && init[i].day == d;
            assert rs[i] == init[i];
          }
          if d in DistinctDays(rs) {
            var i :| 0 <= i < |rs| && rs[i].day == d;
            if i < |rs| - 1 {
              assert init[i] == rs[i];
            }
          }
        }
      }
      ds
  }

  /** A pivot cell as it reaches the sheet: the sum, or `'N/A'` when the cell is empty. */
  function CellOf(group: Option<Metrics>, f: Metric): Cell
  {
    match group
    case None => NA
    case Some(m) => Num(Value(m, f))
  }

  /** A pivot cell as the total formula reads it: an empty cell counts as 0. */
  function ZeroIfAbsent(group: Option<Metrics>, f: Metric): int
  {
    match group
    case None => 0
    case Some(m) => Value(m, f)
  }

  /** The report row of day `d`, read from the grouped sums. */
  function MakeRow(g: map<Key, Metrics>, d: Day): Row
  {
    var igfb := Lookup(g, d, InstagramFacebook);
    var web := Lookup(g, d, Website);
    Row(
      d,
      CellOf(igfb, AmountSpent),
      CellOf(igfb, LinkClicks),
      CellOf(igfb, Leads),
      CellOf(igfb, Messaging),
      CellOf(web, Messaging),
      Num(ZeroIfAbsent(web, Messaging) + ZeroIfAbsent(igfb, Messaging) + ZeroIfAbsent(igfb, Leads)),
      CellOf(web, AmountSpent),
      CellOf(web, LinkClicks),
      CellOf(web, Leads))
  }

  /**
   * The whole computation: classify, group and sum, pivot by day, derive the
   * total and project to the report's columns. The total formula first reads
   * the Website messaging column and then the Instagram&Facebook one; either
   * exists only if some record of that category exists.
   */
  function BuildReport(lists: CampaignLists, rs: seq<Record>): Result<seq<Row>, ReportError>
  {
    var g := Grouped(lists, rs);
    if !HasCategory(g, Website) then
      Err(MissingColumn("Website_Messaging conversations started"))
    else if !HasCategory(g, InstagramFacebook) then
      Err(MissingColumn("Instagram&Facebook_Messaging conversations started"))
    else
      var days := Days(rs);
      Ok(seq(|days|, i requires 0 <= i < |days| => MakeRow(g, days[i])))
  }

  /** The report as the script runs it, with its own campaign lists. */
  function HaircheckReport(rs: seq<Record>): Result<seq<Row>, ReportError>
  {
    BuildReport(HaircheckLists, rs)
  }

  // ---------------------------------------------------------------------------
  // Reference definitions, stated on the input records alone

  /**
   * Website messaging conversations, plus Instagram&Facebook messaging
   * conversations, plus Instagram&Facebook leads, of day `d`; a group with
   * no record contributes its empty sum, 0.
   */
  ghost function ExpectedTotalImpressions(lists: CampaignLists, rs: seq<Record>, d: Day): int
  {
    Sum(Members(lists, rs, (d, Website))).messages
      + Sum(Members(lists, rs, (d, InstagramFacebook))).messages
      + Sum(Members(lists, rs, (d, InstagramFacebook))).leads
  }

  /** The base metric column of category `c` (never `Other`) for metric `f`. */
  function BaseCell(row: Row, c: Category, f: Metric): Cell
    requires c != Other
  {
    match (c, f)
    case (InstagramFacebook, AmountSpent) => row.igfbAmountSpent
    case (InstagramFacebook, LinkClicks) => row.igfbLinkClicks
    case (InstagramFacebook, Leads) => row.igfbLeads
    case (InstagramFacebook, Messaging) => row.igfbMessagingConversationsStarted
    case (Website, AmountSpent) => row.websiteAmountSpent
    case (Website, LinkClicks) => row.websiteLinkClicks
    case (Website, Leads) => row.websiteLeads
    case (Website, Messaging) => row.websiteMessagingConversationsStarted
  }

  // ---------------------------------------------------------------------------
  // Properties of the report

  /**
   * The run aborts exactly when the input has no Website record or no
   * Instagram&Facebook record; the Website column is looked up first.
   */
  lemma ReportFailsExactlyWhenCategoryMissing(lists: CampaignLists, rs: seq<Record>)
    ensures BuildReport(lists, rs).Err? <==>
      (forall i :: 0 <= i < |rs| ==> Classify(lists, rs[i].campaign) != Website)
      || (forall i :: 0 <= i < |rs| ==> Classify(lists, rs[i].campaign) != InstagramFacebook)
    ensures (forall i :: 0 <= i < |rs| ==> Classify(lists, rs[i].campaign) != Website) ==>
      BuildReport(lists, rs) == Err(MissingColumn("Website_Messaging conversations started"))
    ensures ((exists i :: 0 <= i < |rs| && Classify(lists, rs[i].campaign) == Website)
      && (forall i :: 0 <= i < |rs| ==> Classify(lists, rs[i].campaign) != InstagramFacebook)) ==>
      BuildReport(lists, rs) == Err(MissingColumn("Instagram&Facebook_Messaging conversations started"))
  {
    HasCategoryIffClassified(lists, rs, Website);
    HasCategoryIffClassified(lists, rs, InstagramFacebook);
  }

  /** One row per distinct day of the input, each day once, in ascending order. */
  lemma ReportRowsAreDistinctDaysAscending(lists: CampaignLists, rs: seq<Record>)
    requires BuildReport(lists, rs).Ok?
    ensures var rows := BuildReport(lists, rs).value;
      && |rows| == |DistinctDays(rs)|
      && (forall i, j :: 0 <= i < j < |rows| ==> Less(rows[i].day, rows[j].day))
      && (forall d :: d in DistinctDays(rs) <==> exists i :: 0 <= i < |rows| && rows[i].day == d)
  {
    var rows, days := BuildReport(lists, rs).value, Days(rs);
    assert |rows| == |days|;
    assert forall i :: 0 <= i < |rows| ==> rows[i].day == days[i];
    assert (set x | x in days) == DistinctDays(rs);
    StrictlySortedCardinality(days);
    forall d ensures d in DistinctDays(rs) <==> exists i :: 0 <= i < |rows| && rows[i].day == d {
      if d in DistinctDays(rs) {
        assert d in days;
        var i :| 0 <= i < |days| && days[i] == d;
        assert rows[i].day == d;
      }
    }
  }

  /**
   * A base metric cell is `'N/A'` exactly when its day has no record of its
   * category; otherwise it holds the sum over those records, even a sum of 0.
   */
  lemma ReportBaseCell(lists: CampaignLists, rs: seq<Record>, i: int, c: Category, f: Metric)
    requires BuildReport(lists, rs).Ok?
    requires 0 <= i < |BuildReport(lists, rs).value|
    requires c != Other
    ensures var row := BuildReport(lists, rs).value[i];
      && (BaseCell(row, c, f) == NA <==> forall j :: 0 <= j < |rs| ==> KeyOf(lists, rs[j]) != (row.day, c))
      && ((exists j :: 0 <= j < |rs| && KeyOf(lists, rs[j]) == (row.day, c)) ==>
            BaseCell(row, c, f) == Num(Value(Sum(Members(lists, rs, (row.day, c))), f)))
  {
    var row := BuildReport(lists, rs).value[i];
    var d := Days(rs)[i];
    assert row == MakeRow(Grouped(lists, rs), d);
    LookupIsGroupSum(lists, rs, d, c);
  }

  /**
   * The Instagram&Facebook total counts each absent value as 0: it is never
   * `'N/A'`, and with non-negative metrics it is at least each of its parts.
   */
  lemma ReportTotalImpressions(lists: CampaignLists, rs: seq<Record>, i: int)
    requires BuildReport(lists, rs).Ok?
    requires 0 <= i < |BuildReport(lists, rs).value|
    ensures var row := BuildReport(lists, rs).value[i];
      row.igfbTotalImpressions == Num(ExpectedTotalImpressions(lists, rs, row.day))
    ensures var row := BuildReport(lists, rs).value[i];
      var web, igfb := Sum(Members(lists, rs, (row.day, Website))), Sum(Members(lists, rs, (row.day, InstagramFacebook)));
      NonNegative(rs) ==>
        && row.igfbTotalImpressions.n >= web.messages
        && row.igfbTotalImpressions.n >= igfb.messages
        && row.igfbTotalImpressions.n >= igfb.leads
  {
    var row := BuildReport(lists, rs).value[i];
    var d := Days(rs)[i];
    assert row == MakeRow(Grouped(lists, rs), d);
    AbsentGroupSumsToZero(lists, rs, d, Website);
    AbsentGroupSumsToZero(lists, rs, d, InstagramFacebook);
    if NonNegative(rs) {
      MembersNonNegative(lists, rs, (d, Website));
      MembersNonNegative(lists, rs, (d, InstagramFacebook));
    }
  }

  /** The pivot cell of a group with no record is empty, and its sum is 0. */
  lemma AbsentGroupSumsToZero(lists: CampaignLists, rs: seq<Record>, d: Day, c: Category)
    ensures Lookup(Grouped(lists, rs), d, c).Some? ==>
      Lookup(Grouped(lists, rs), d, c).value == Sum(Members(lists, rs, (d, c)))
    ensures Lookup(Grouped(lists, rs), d, c).None? ==> Sum(Members(lists, rs, (d, c))) == Zero
  {
    LookupIsGroupSum(lists, rs, d, c);
    MembersNonEmpty(lists, rs, (d, c));
  }

  /** Changing the metrics of `Other` records changes no output value. */
  lemma ReportIgnoresOther(lists: CampaignLists, rs: seq<Record>, rs': seq<Record>)
    requires SameExceptOther(lists, rs, rs')
    ensures BuildReport(lists, rs) == BuildReport(lists, rs')
  {
    var g, g' := Grouped(lists, rs), Grouped(lists, rs');
    forall k: Key ensures (k in g <==> k in g') && (k in g && k.1 != Other ==> g[k] == g'[k]) {
      GroupedIgnoresOther(lists, rs, rs', k);
    }
    forall c ensures HasCategory(g, c) <==> HasCategory(g', c) {
      if HasCategory(g, c) {
        var k :| k in g && k.1 == c;
        assert k in g';
      }
      if HasCategory(g', c) {
        var k :| k in g' && k.1 == c;
        assert k in g;
      }
    }
    forall d ensures d in DistinctDays(rs) <==> d in DistinctDays(rs') {
      if d in DistinctDays(rs) {
        var i :| 0 <= i < |rs| && rs[i].day == d;
        assert rs'[i].day == d;
      }
      if d in DistinctDays(rs') {
        var i :| 0 <= i < |rs'| && rs'[i].day == d;
        assert rs[i].day == d;
      }
    }
    StrictlySortedUnique(Days(rs), Days(rs'));
    var days := Days(rs);
    forall i | 0 <= i < |days| ensures MakeRow(g, days[i]) == MakeRow(g', days[i]) {
      assert Lookup(g, days[i], Website) == Lookup(g', days[i], Website);
      assert Lookup(g, days[i], InstagramFacebook) == Lookup(g', days[i], InstagramFacebook);
    }
    if HasCategory(g, Website) && HasCategory(g, InstagramFacebook) {
      var rows := seq(|days|, i requires 0 <= i < |days| => MakeRow(g, days[i]));
      var rows' := seq(|days|, i requires 0 <= i < |days| => MakeRow(g', days[i]));
      assert rows == rows';
      assert BuildReport(lists, rs) == Ok(rows);
      assert BuildReport(lists, rs') == Ok(rows');
    }
  }

  /** The report does not depend on the order of the input rows. */
  lemma ReportIgnoresRowOrder(lists: CampaignLists, rs: seq<Record>, rs': seq<Record>)
    requires multiset(rs) == multiset(rs')
    ensures BuildReport(lists, rs) == BuildReport(lists, rs')
  {
    GroupedPermutation(lists, rs, rs');
    forall d ensures d in DistinctDays(rs) <==> d in DistinctDays(rs') {
      if d in DistinctDays(rs) {
        var i :| 0 <= i < |rs| && rs[i].day == d;
        assert rs[i] in multiset(rs');
        var j :| 0 <= j < |rs'| && rs'[j] == rs[i];
      }
      if d in DistinctDays(rs') {
        var i :| 0 <= i < |rs'| && rs'[i].day == d;
        assert rs'[i] in multiset(rs);
        var j :| 0 <= j < |rs| && rs[j] == rs'[i];
      }
    }
    StrictlySortedUnique(Days(rs), Days(rs'));
  }
}
