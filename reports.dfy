/** The aggregations of `src/lib/api.ts` behind the reports page (`fetchReportSummary`)
    and the admin dashboard (`fetchAdminDashboard`). A query that failed gives no rows
    (`data` is null); timestamps are milliseconds since the epoch. */
module Reports {
  import opened Wrappers
  import opened Numbers
  import opened Records

  /** The `status, mrr` columns of a subscription. */
  datatype SubscriptionStat = SubscriptionStat(status: Option<string>, mrr: Option<real>)

  /** The `status, category` columns of a ticket. */
  datatype TicketStat = TicketStat(status: Option<string>, category: Option<string>)

  /** A profile's `created_at`, or None when it does not parse as a date. */
  datatype ProfileStat = ProfileStat(createdAt: Option<int>)

  /** `rows ?? []`. */
  function RowsOf<T>(rows: Option<seq<T>>): seq<T> {
    rows.GetOr([])
  }

  /** `rows?.length || 1`: the row count, or 1 when there are no rows. */
  function LengthOr1<T>(rows: Option<seq<T>>): (n: nat)
    ensures n >= 1
    ensures |RowsOf(rows)| > 0 ==> n == |RowsOf(rows)|
    ensures |RowsOf(rows)| == 0 ==> n == 1
  {
    if rows.None? || |rows.value| == 0 then 1 else |rows.value|
  }

  /** The MRR of each subscription, `Number(row.mrr || 0)`. */
  function MrrValues(subs: seq<SubscriptionStat>): (r: seq<real>)
    ensures |r| == |subs|
    ensures forall k :: 0 <= k < |subs| ==> r[k] == subs[k].mrr.GetOr(0.0)
  {
    seq(|subs|, k requires 0 <= k < |subs| => NumberOr0(subs[k].mrr))
  }

  /** The MRR reduce: the subscriptions' MRR added up, missing values as 0. */
  function TotalMrr(subs: Option<seq<SubscriptionStat>>): real {
    Sum(MrrValues(RowsOf(subs)))
  }

  /** `Math.round((part / whole) * 100)`. */
  function Rate(part: nat, whole: nat): int
    requires whole >= 1
  {
    Round(part as real / whole as real * 100.0)
  }

  /** A rate over a part of the whole is a percentage between 0 and 100. */
  lemma RateBounds(part: nat, whole: nat)
    requires whole >= 1 && part <= whole
    ensures 0 <= Rate(part, whole) <= 100
  {
    var x := part as real / whole as real;
    assert 0.0 <= x <= 1.0;
  }

  predicate IsResolved(t: TicketStat) {
    t.status == Some("Resolved")
  }

  predicate IsCancelled(s: SubscriptionStat) {
    s.status == Some("Cancelled")
  }

  /** Thirty days before `now`. */
  function Last30(now: int): int {
    now - 30 * 86400000
  }

  /** `new Date(row.created_at) >= last30`: an unparseable date compares false. */
  predicate IsNew(p: ProfileStat, now: int) {
    p.createdAt.Some? && p.createdAt.value >= Last30(now)
  }

  /** `row.category ?? "General"`. */
  function CategoryOf(t: TicketStat): string {
    t.category.GetOr("General")
  }

  /** The number of tickets in a category. */
  function CountOf(ts: seq<TicketStat>, key: string): nat {
    if ts == [] then 0 else CountOf(ts[..|ts| - 1], key) + (if CategoryOf(ts[|ts| - 1]) == key then 1 else 0)
  }

  /** The categories met, each once, in order of first appearance: the order in which
      `categoryCounts` gets its keys and `Object.entries` returns them. */
  function Keys(ts: seq<TicketStat>): seq<string> {
    if ts == [] then []
    else if CategoryOf(ts[|ts| - 1]) in Keys(ts[..|ts| - 1]) then Keys(ts[..|ts| - 1])
    else Keys(ts[..|ts| - 1]) + [CategoryOf(ts[|ts| - 1])]
  }

  /** No category is listed twice. */
  predicate Distinct(ks: seq<string>) {
    forall i, j :: 0 <= i < j < |ks| ==> ks[i] != ks[j]
  }

  /** A category is listed exactly when some ticket is in it, and then it is listed once. */
  lemma {:induction false} KeysMembers(ts: seq<TicketStat>, key: string)
    ensures Distinct(Keys(ts))
    ensures key in Keys(ts) <==> exists k :: 0 <= k < |ts| && CategoryOf(ts[k]) == key
  {
    if ts != [] {
      var init := ts[..|ts| - 1];
      KeysMembers(init, key);
      KeysMembers(init, CategoryOf(ts[|ts| - 1]));
      if exists k :: 0 <= k < |init| && CategoryOf(init[k]) == key {
        var k :| 0 <= k < |init| && CategoryOf(init[k]) == key;
        assert ts[k] == init[k];
      }
      if exists k :: 0 <= k < |ts| && CategoryOf(ts[k]) == key {
        var k :| 0 <= k < |ts| && CategoryOf(ts[k]) == key;
        if k < |init| {
          assert init[k] == ts[k];
        }
      }
    }
  }

  /** A category no ticket is in has count 0. */
  lemma {:induction false} CountOfAbsent(ts: seq<TicketStat>, key: string)
    requires key !in Keys(ts)
    ensures CountOf(ts, key) == 0
  {
    if ts != [] {
      var init := ts[..|ts| - 1];
      assert forall k :: k in Keys(init) ==> k in Keys(ts);
      CountOfAbsent(init, key);
    }
  }

  /** One more ticket adds one to its own category's count and leaves the others alone. */
  lemma CountOfStep(ts: seq<TicketStat>, i: nat, key: string)
    requires i < |ts|
    ensures CountOf(ts[..i + 1], key) == CountOf(ts[..i], key) + (if CategoryOf(ts[i]) == key then 1 else 0)
    ensures Keys(ts[..i + 1]) ==
      if CategoryOf(ts[i]) in Keys(ts[..i]) then Keys(ts[..i]) else Keys(ts[..i]) + [CategoryOf(ts[i])]
  {
    assert ts[..i + 1][..i] == ts[..i];
  }

  /** The `reduce` that builds `categoryCounts`: for each ticket, the count of its category
      (a missing one counts as "General") goes up by one; a new category is added at the
      end of the key order. */
  method CountCategories(ts: seq<TicketStat>) returns (keys: seq<string>, counts: map<string, nat>)
    ensures keys == Keys(ts)
    ensures forall key :: key in counts <==> key in keys
    ensures forall key :: key in counts ==> counts[key] == CountOf(ts, key)
  {
    keys, counts := [], map[];
    var i := 0;
    while i < |ts|
      invariant 0 <= i <= |ts|
      invariant keys == Keys(ts[..i])
      invariant forall key :: key in counts <==> key in keys
      invariant forall key :: key in counts ==> counts[key] == CountOf(ts[..i], key)
    {
      var key := CategoryOf(ts[i]);
      if key !in counts {
        CountOfAbsent(ts[..i], key);
        keys := keys + [key];
      }
      counts := counts[key := (if key in counts then counts[key] else 0) + 1];
      forall k | k in counts
        ensures counts[k] == CountOf(ts[..i + 1], k)
      {
        CountOfStep(ts, i, k);
      }
      CountOfStep(ts, i, key);
      i := i + 1;
    }
    assert ts[..i] == ts;
  }

  /** The counts of the listed categories added up. */
  function TotalCount(ts: seq<TicketStat>, ks: seq<string>): nat {
    if ks == [] then 0 else TotalCount(ts, ks[..|ks| - 1]) + CountOf(ts, ks[|ks| - 1])
  }

  /** How many of the listed categories are `key`. */
  function Hits(ks: seq<string>, key: string): nat {
    if ks == [] then 0 else Hits(ks[..|ks| - 1], key) + (if ks[|ks| - 1] == key then 1 else 0)
  }

  /** A category listed once is hit once; an unlisted one is not hit. */
  lemma {:induction false} HitsDistinct(ks: seq<string>, key: string)
    requires Distinct(ks)
    ensures Hits(ks, key) == if key in ks then 1 else 0
  {
    if ks != [] {
      var init := ks[..|ks| - 1];
      assert Distinct(init);
      HitsDistinct(init, key);
      assert key in ks <==> key in init || ks[|ks| - 1] == key;
      if ks[|ks| - 1] == key {
        assert key !in init;
      }
    }
  }

  /** Adding a ticket adds one to the total over the categories for each listing of its own. */
  lemma {:induction false} TotalCountStep(ts: seq<TicketStat>, t: TicketStat, ks: seq<string>)
    ensures TotalCount(ts + [t], ks) == TotalCount(ts, ks) + Hits(ks, CategoryOf(t))
  {
    if ks != [] {
      TotalCountStep(ts, t, ks[..|ks| - 1]);
      assert (ts + [t])[..|ts + [t]| - 1] == ts;
    }
  }

  /** The category counts add up to the number of tickets. */
  lemma {:induction false} CountsAddUp(ts: seq<TicketStat>)
    ensures TotalCount(ts, Keys(ts)) == |ts|
  {
    if ts != [] {
      var init, t := ts[..|ts| - 1], ts[|ts| - 1];
      assert ts == init + [t];
      CountsAddUp(init);
      KeysMembers(init, CategoryOf(t));
      HitsDistinct(Keys(init), CategoryOf(t));
      TotalCountStep(init, t, Keys(init));
      if CategoryOf(t) !in Keys(init) {
        CountOfAbsent(init, CategoryOf(t));
        assert Keys(ts) == Keys(init) + [CategoryOf(t)];
        assert Keys(ts)[..|Keys(ts)| - 1] == Keys(init);
      }
    }
  }

  /** One row of `topIssues`. */
  datatype Issue = Issue(category: string, count: nat, pct: string)

  /** One entry of `Object.entries(categoryCounts).map(...)`: the category, its count and
      its share of `ticketsTotal`, rounded, as a percentage. */
  function IssueOf(category: string, count: nat, ticketsTotal: nat): Issue
    requires ticketsTotal >= 1
  {
    Issue(category, count, IntToString(Rate(count, ticketsTotal)) + "%")
  }

  /** The entries for the tickets' categories, in key order. */
  function Entries(ts: seq<TicketStat>, ticketsTotal: nat): (r: seq<Issue>)
    requires ticketsTotal >= 1
    ensures |r| == |Keys(ts)|
    ensures forall k :: 0 <= k < |r| ==> r[k] == IssueOf(Keys(ts)[k], CountOf(ts, Keys(ts)[k]), ticketsTotal)
  {
    var keys := Keys(ts);
    seq(|keys|, k requires 0 <= k < |keys| => IssueOf(keys[k], CountOf(ts, keys[k]), ticketsTotal))
  }

  /** Ordered by count, largest first. */
  predicate SortedDesc(xs: seq<Issue>) {
    forall i, j :: 0 <= i < j < |xs| ==> xs[i].count >= xs[j].count
  }

  /** Places `x` after every entry whose count is at least its own. */
  function Insert(x: Issue, s: seq<Issue>): (r: seq<Issue>)
    ensures multiset(r) == multiset(s) + multiset{x}
    ensures |r| == |s| + 1
    ensures forall y :: y in r ==> y in s || y == x
  {
    if s == [] then [x]
    else if s[0].count >= x.count then
      assert s == [s[0]] + s[1..];
      [s[0]] + Insert(x, s[1..])
    else [x] + s
  }

  /** Inserting into a list ordered by count keeps it ordered. */
  lemma {:induction false} InsertSorted(x: Issue, s: seq<Issue>)
    requires SortedDesc(s)
    ensures SortedDesc(Insert(x, s))
  {
    if s != [] && s[0].count >= x.count {
      InsertSorted(x, s[1..]);
      HeadIsLargest(s);
      ConsSorted(s[0], Insert(x, s[1..]));
    }
  }

  /** An entry whose count is at least every count of an ordered list can go in front of it. */
  lemma ConsSorted(h: Issue, rest: seq<Issue>)
    requires SortedDesc(rest)
    requires forall y :: y in rest ==> y.count <= h.count
    ensures SortedDesc([h] + rest)
  {
    var r := [h] + rest;
    forall i, j | 0 <= i < j < |r|
      ensures r[i].count >= r[j].count
    {
      assert r[j] == rest[j - 1] && r[j] in rest;
      if i > 0 {
        assert r[i] == rest[i - 1];
      }
    }
  }

  /** The first entry of a list ordered by count has the largest count. */
  lemma HeadIsLargest(s: seq<Issue>)
    requires SortedDesc(s) && s != []
    ensures forall y :: y in s[1..] ==> y.count <= s[0].count
  {
    forall y | y in s[1..] ensures y.count <= s[0].count {
      var k :| 0 <= k < |s[1..]| && s[1..][k] == y;
      assert s[k + 1] == y;
    }
  }

  /** `.sort((a, b) => b.count - a.count)`, a stable sort by count, largest first, as an
      insertion sort. */
  function SortDesc(xs: seq<Issue>): (r: seq<Issue>)
    ensures multiset(r) == multiset(xs) && |r| == |xs|
    ensures SortedDesc(r)
  {
    if xs == [] then []
    else
      assert xs == xs[..|xs| - 1] + [xs[|xs| - 1]];
      var sorted := SortDesc(xs[..|xs| - 1]);
      assert SortedDesc(Insert(xs[|xs| - 1], sorted)) by {
        InsertSorted(xs[|xs| - 1], sorted);
      }
      Insert(xs[|xs| - 1], sorted)
  }

  /** `.slice(0, 6)` of the sorted entries. */
  function TopIssues(issues: seq<Issue>): seq<Issue> {
    var sorted := SortDesc(issues);
    if |sorted| <= 6 then sorted else sorted[..6]
  }

  /** At most six entries, largest count first, taken from the entries given, and no entry
      left out has a larger count than any entry kept. */
  lemma TopIssuesShape(issues: seq<Issue>)
    ensures var top := TopIssues(issues);
      |top| <= 6 && |top| == (if |issues| <= 6 then |issues| else 6) && SortedDesc(top) &&
      multiset(top) <= multiset(issues) &&
      forall e, t :: e in multiset(issues) - multiset(top) && t in top ==> e.count <= t.count
  {
    var sorted := SortDesc(issues);
    var n := if |sorted| <= 6 then |sorted| else 6;
    assert TopIssues(issues) == sorted[..n];
    PrefixMultiset(sorted, n);
    SortedSplit(sorted, n);
  }

  /** Cutting a list in two splits its multiset of elements in two. */
  lemma PrefixMultiset<T>(s: seq<T>, n: nat)
    requires n <= |s|
    ensures multiset(s[..n]) <= multiset(s)
    ensures multiset(s) - multiset(s[..n]) == multiset(s[n..])
  {
    assert s == s[..n] + s[n..];
  }

  /** In a list ordered by count, nothing after a cut outweighs anything before it. */
  lemma SortedSplit(sorted: seq<Issue>, n: nat)
    requires SortedDesc(sorted) && n <= |sorted|
    ensures forall e, t :: e in sorted[n..] && t in sorted[..n] ==> e.count <= t.count
  {
    forall e, t | e in sorted[n..] && t in sorted[..n]
      ensures e.count <= t.count
    {
      var j :| 0 <= j < |sorted| - n && sorted[n..][j] == e;
      var i :| 0 <= i < n && sorted[..n][i] == t;
      assert sorted[n + j] == e && sorted[i] == t;
    }
  }

  /** One KPI of the reports page; `caption` is its `label`. */
  datatype Kpi = Kpi(caption: string, value: real, format: string)

  datatype ReportSummary = ReportSummary(kpis: seq<Kpi>, topIssues: seq<Issue>)

  /** The four KPIs: revenue, resolution rate, new clients in the last thirty days and churn
      rate. Both rates are percentages between 0 and 100 whatever the rows, including none,
      because they divide by `length || 1`. */
  function Kpis(subs: Option<seq<SubscriptionStat>>, tickets: Option<seq<TicketStat>>,
                profiles: Option<seq<ProfileStat>>, now: int): (r: seq<Kpi>)
    ensures |r| == 4
    ensures r[0].value == TotalMrr(subs)
    ensures r[1].value == Rate(Count(RowsOf(tickets), IsResolved), LengthOr1(tickets)) as real
    ensures 0.0 <= r[1].value <= 100.0
    ensures r[2].value == Count(RowsOf(profiles), p => IsNew(p, now)) as real
    ensures r[3].value == Rate(Count(RowsOf(subs), IsCancelled), LengthOr1(subs)) as real
    ensures 0.0 <= r[3].value <= 100.0
  {
    var resolution := Rate(Count(RowsOf(tickets), IsResolved), LengthOr1(tickets));
    var churn := Rate(Count(RowsOf(subs), IsCancelled), LengthOr1(subs));
    assert 0 <= resolution <= 100 && 0 <= churn <= 100 by {
      RateBounds(Count(RowsOf(tickets), IsResolved), LengthOr1(tickets));
      RateBounds(Count(RowsOf(subs), IsCancelled), LengthOr1(subs));
    }
    [Kpi("Monthly Revenue", TotalMrr(subs), "currency"),
     Kpi("Resolution Rate", resolution as real, "percent"),
     Kpi("New Clients (Month)", Count(RowsOf(profiles), p => IsNew(p, now)) as real, "number"),
     Kpi("Churn Rate", churn as real, "percent")]
  }

  /** `fetchReportSummary()` over the three query results and the current time: the KPIs
      and the top issues of the category counts built by the `reduce`. */
  method FetchReportSummary(subs: Option<seq<SubscriptionStat>>, tickets: Option<seq<TicketStat>>,
                            profiles: Option<seq<ProfileStat>>, now: int)
    returns (summary: ReportSummary)
    ensures summary.kpis == Kpis(subs, tickets, profiles, now)
    ensures summary.topIssues == TopIssues(Entries(RowsOf(tickets), LengthOr1(tickets)))
  {
    var ts := RowsOf(tickets);
    var ticketsTotal := LengthOr1(tickets);
    var keys, counts := CountCategories(ts);
    var issues := seq(|keys|, k requires 0 <= k < |keys| => IssueOf(keys[k], counts[keys[k]], ticketsTotal));
    assert issues == Entries(ts, ticketsTotal);
    summary := ReportSummary(Kpis(subs, tickets, profiles, now), TopIssues(issues));
  }

  /** The top issues: at most six, largest count first, each a category of the tickets with
      its exact count and rounded share; every category is there when there are at most
      six, and none left out has a larger count than one kept. */
  lemma ReportTopIssues(ts: seq<TicketStat>, ticketsTotal: nat)
    requires ticketsTotal >= 1
    ensures var entries := Entries(ts, ticketsTotal);
      var top := TopIssues(entries);
      |top| <= 6 && SortedDesc(top) &&
      (forall e :: e in top ==>
        e.category in Keys(ts) && e.count == CountOf(ts, e.category) &&
        e.pct == IntToString(Rate(e.count, ticketsTotal)) + "%") &&
      (|Keys(ts)| <= 6 ==> forall key :: key in Keys(ts) ==> exists e :: e in top && e.category == key) &&
      (forall e, t :: e in multiset(entries) - multiset(top) && t in top ==> e.count <= t.count)
  {
    var entries := Entries(ts, ticketsTotal);
    var top := TopIssues(entries);
    TopIssuesShape(entries);
    forall e | e in top
      ensures e.category in Keys(ts) && e.count == CountOf(ts, e.category)
      ensures e.pct == IntToString(Rate(e.count, ticketsTotal)) + "%"
    {
      assert e in multiset(entries);
      var k :| 0 <= k < |entries| && entries[k] == e;
    }
    if |Keys(ts)| <= 6 {
      forall key | key in Keys(ts)
        ensures exists e :: e in top && e.category == key
      {
        var k :| 0 <= k < |Keys(ts)| && Keys(ts)[k] == key;
        assert entries[k] in multiset(top);
      }
    }
  }

  /** An `activity_log` entry, copied field for field. */
  datatype Activity = Activity(
    id: string, action: Option<string>, detail: Option<string>, actor: Option<string>, createdAt: Option<string>)

  datatype DashboardStats = DashboardStats(
    totalClients: nat, openTickets: nat, activeSubs: nat, mrr: real, uptime: real)

  datatype Dashboard = Dashboard(stats: DashboardStats, activity: seq<Activity>)

  predicate IsOpen(t: TicketStat) {
    t.status != Some("Resolved")
  }

  predicate IsActive(s: SubscriptionStat) {
    s.status == Some("Active")
  }

  predicate IsInactive(s: SubscriptionStat) {
    s.status != Some("Active")
  }

  /** `fetchAdminDashboard()` over the four query results. */
  function FetchAdminDashboard(profiles: Option<seq<ProfileStat>>, tickets: Option<seq<TicketStat>>,
                               subs: Option<seq<SubscriptionStat>>, activity: Option<seq<Activity>>): (d: Dashboard)
    ensures d.stats.totalClients == |RowsOf(profiles)|
    ensures d.stats.openTickets + Count(RowsOf(tickets), IsResolved) == |RowsOf(tickets)|
    ensures d.stats.activeSubs <= |RowsOf(subs)|
    ensures d.stats.activeSubs + Count(RowsOf(subs), IsInactive) == |RowsOf(subs)|
    ensures d.stats.mrr == TotalMrr(subs)
    ensures d.stats.uptime == 99.97
    ensures d.activity == RowsOf(activity)
  {
    var ts := RowsOf(tickets);
    assert Count(ts, IsOpen) + Count(ts, IsResolved) == |ts| by {
      CountDisjoint(ts, IsOpen, IsResolved, t => true);
      CountAll(ts, t => true);
    }
    var ss := RowsOf(subs);
    assert Count(ss, IsActive) + Count(ss, IsInactive) == |ss| by {
      CountDisjoint(ss, IsActive, IsInactive, s => true);
      CountAll(ss, s => true);
    }
    Dashboard(DashboardStats(if profiles.Some? then |profiles.value| else 0, Count(ts, IsOpen),
                             Count(RowsOf(subs), IsActive), TotalMrr(subs), 99.97),
              RowsOf(activity))
  }
}
