/** The counting behind the analytics routes: the dashboard's totals,
    status and source grouping and per-agent conversion, the conversion
    funnel, and the lead-score distribution. Each database query becomes a
    count over the lead, agent and interaction tables; "now" and the period
    start are integer timestamps given as parameters. */
module Analytics {
  import opened Common
  import opened LeadModel

  // ---------------------------------------------------------------------
  // Counting and percentages.
  // ---------------------------------------------------------------------

  /** `query.filter(p).count()`: how many rows satisfy `p`. */
  function Count<T>(rows: seq<T>, p: T -> bool): (n: nat)
    ensures n <= |rows|
  {
    if rows == [] then 0 else (if p(rows[0]) then 1 else 0) + Count(rows[1..], p)
  }

  /** A weaker filter never counts fewer rows. */
  lemma {:induction false} CountMonotone<T>(rows: seq<T>, p: T -> bool, q: T -> bool)
    requires forall x :: p(x) ==> q(x)
    ensures Count(rows, p) <= Count(rows, q)
  {
    if rows != [] {
      CountMonotone(rows[1..], p, q);
    }
  }

  /** `part / whole * 100` with Python's true division, as an exact real. */
  function Percent(part: nat, whole: nat): real
    requires whole > 0
  {
    part as real / whole as real * 100.0
  }

  lemma PercentBounds(a: nat, b: nat, whole: nat)
    requires a <= b <= whole && whole > 0
    ensures 0.0 <= Percent(a, whole) <= Percent(b, whole) <= 100.0
  {
    var w := whole as real;
    assert (b as real - a as real) / w >= 0.0;
    assert b as real / w - a as real / w == (b as real - a as real) / w;
    assert (w - b as real) / w >= 0.0;
    assert w / w == 1.0;
    assert (w - b as real) / w == w / w - b as real / w;
  }

  /** `(part / whole * 100) if whole > 0 else 0`, the guard every rate in
      the analytics routes uses. */
  function GuardedRate(part: nat, whole: nat): (r: real)
    ensures whole == 0 ==> r == 0.0
    ensures part <= whole ==> 0.0 <= r <= 100.0
    ensures part == whole && whole > 0 ==> r == 100.0
  {
    if whole == 0 then 0.0
    else if part <= whole then PercentBounds(part, whole, whole); Percent(part, whole)
    else Percent(part, whole)
  }

  /** The period start: `utcnow() - timedelta(days=days)`. */
  function PeriodStart(now: int, days: int): (start: int)
    ensures start <= now <==> days >= 0
    ensures start == now <==> days == 0
    ensures days >= 0 ==> now - start >= days
  {
    now - days * SecondsPerDay
  }

  /** `request.args.get('days', 30, type=int)`: a value `int()` rejects
      falls back to the default instead of failing. */
  function DaysArg(args: map<string, string>): (days: int)
    ensures "days" !in args ==> days == 30
    ensures "days" in args && PyInt(args["days"]).Some? ==> days == PyInt(args["days"]).value
    ensures "days" in args && PyInt(args["days"]).None? ==> days == 30
  {
    if "days" in args then (match PyInt(args["days"]) case Some(d) => d case None => 30) else 30
  }

  // ---------------------------------------------------------------------
  // Grouping: `query(column, count(id)).group_by(column)` and the dict
  // built from its rows.
  // ---------------------------------------------------------------------

  /** The rows of a grouped count: a key and how many rows carry it. */
  type Groups = seq<(string, nat)>

  /** The keys that have a row. */
  function KeySet(g: Groups): set<string>
  {
    if g == [] then {} else KeySet(g[..|g| - 1]) + {g[|g| - 1].0}
  }

  /** No key has two rows. */
  predicate DistinctKeys(g: Groups)
  {
    g == [] || (g[|g| - 1].0 !in KeySet(g[..|g| - 1]) && DistinctKeys(g[..|g| - 1]))
  }

  /** The count the last row for `k` carries, 0 without one. */
  function Lookup(g: Groups, k: string): nat
  {
    if g == [] then 0
    else if g[|g| - 1].0 == k then g[|g| - 1].1
    else Lookup(g[..|g| - 1], k)
  }

  /** The sum of the counts of all rows. */
  function Total(g: Groups): nat
  {
    if g == [] then 0 else Total(g[..|g| - 1]) + g[|g| - 1].1
  }

  /** One more row with key `k`: its count goes up by one, or it gets a
      row of its own. */
  function Bump(g: Groups, k: string): (r: Groups)
    ensures KeySet(r) == KeySet(g) + {k}
    ensures Total(r) == Total(g) + 1
    ensures forall x :: Lookup(r, x) == Lookup(g, x) + (if x == k then 1 else 0)
    ensures DistinctKeys(g) ==> DistinctKeys(r)
  {
    if g == [] then [(k, 1)]
    else
      var init, last := g[..|g| - 1], g[|g| - 1];
      if last.0 == k then
        var r := init + [(k, last.1 + 1)];
        assert r[..|r| - 1] == init;
        r
      else
        var r := Bump(init, k) + [last];
        assert r[..|r| - 1] == Bump(init, k);
        r
  }

  /** `group_by` counting over the key column, one key after the other. */
  function Tally(keys: seq<string>): Groups
  {
    if keys == [] then [] else Bump(Tally(keys[..|keys| - 1]), keys[|keys| - 1])
  }

  /** The grouped rows have one row per key present, carry each key's
      number of occurrences, and their counts add up to the number of rows
      grouped. */
  lemma TallyMeaning(keys: seq<string>)
    ensures DistinctKeys(Tally(keys))
    ensures forall x :: x in KeySet(Tally(keys)) <==> x in keys
    ensures forall x :: Lookup(Tally(keys), x) == multiset(keys)[x]
    ensures Total(Tally(keys)) == |keys|
  {
    TallyShape(keys);
    TallyCounts(keys);
  }

  lemma {:induction false} TallyShape(keys: seq<string>)
    ensures DistinctKeys(Tally(keys))
    ensures forall x :: x in KeySet(Tally(keys)) <==> x in keys
    ensures Total(Tally(keys)) == |keys|
  {
    if keys != [] {
      var init, last := keys[..|keys| - 1], keys[|keys| - 1];
      TallyShape(init);
      assert keys == init + [last];
    }
  }

  lemma {:induction false} TallyCounts(keys: seq<string>)
    ensures forall x :: Lookup(Tally(keys), x) == multiset(keys)[x]
  {
    if keys != [] {
      var init, last := keys[..|keys| - 1], keys[|keys| - 1];
      TallyCounts(init);
      assert keys == init + [last];
      assert multiset(keys) == multiset(init) + multiset{last};
    }
  }

  /** `{key: count for key, count in rows}`: a later row overwrites an
      earlier one with the same key. */
  function ToMap(g: Groups): (m: map<string, nat>)
    ensures m.Keys == KeySet(g)
    ensures forall x :: x in m ==> m[x] == Lookup(g, x)
  {
    if g == [] then map[] else ToMap(g[..|g| - 1])[g[|g| - 1].0 := g[|g| - 1].1]
  }

  function Statuses(leads: seq<Lead>): (s: seq<string>)
    ensures |s| == |leads| && forall i :: 0 <= i < |leads| ==> s[i] == leads[i].status
  {
    seq(|leads|, i requires 0 <= i < |leads| => leads[i].status)
  }

  function Sources(leads: seq<Lead>): (s: seq<string>)
    ensures |s| == |leads| && forall i :: 0 <= i < |leads| ==> s[i] == leads[i].source
  {
    seq(|leads|, i requires 0 <= i < |leads| => leads[i].source)
  }

  /** `leads_by_status` (or `leads_by_source`) as a dict. */
  function GroupCounts(keys: seq<string>): map<string, nat>
  {
    ToMap(Tally(keys))
  }

  /** The status (or source) counts: a key for every value present and no
      other, each mapped to how many leads carry it, and the grouped rows
      behind the dict add up to `total_leads`. */
  lemma GroupCountsMeaning(keys: seq<string>)
    ensures forall x :: x in GroupCounts(keys) <==> x in keys
    ensures forall x :: x in GroupCounts(keys) ==> GroupCounts(keys)[x] == multiset(keys)[x]
    ensures Total(Tally(keys)) == |keys|
  {
    TallyMeaning(keys);
  }

  // ---------------------------------------------------------------------
  // The dashboard.
  // ---------------------------------------------------------------------

  function CreatedSince(start: int): Lead -> bool
  {
    (l: Lead) => l.createdAt >= start
  }

  /** Converted leads updated in the period, whenever they were created. */
  function ConvertedSince(start: int): Lead -> bool
  {
    (l: Lead) => l.status == "converted" && l.updatedAt >= start
  }

  function InteractionSince(start: int): Interaction -> bool
  {
    (x: Interaction) => x.createdAt >= start
  }

  function AssignedTo(agentId: int): Lead -> bool
  {
    (l: Lead) => l.assignedAgentId == Some(agentId)
  }

  function ConvertedFor(agentId: int): Lead -> bool
  {
    (l: Lead) => l.assignedAgentId == Some(agentId) && l.status == "converted"
  }

  /** The outer-join count is the agent's `leads` relationship count. */
  lemma {:induction false} AssignedCountAgrees(leads: seq<Lead>, agentId: int)
    ensures Count(leads, AssignedTo(agentId)) == AssignedLeadCount(leads, agentId)
  {
    if leads != [] {
      AssignedCountAgrees(leads[1..], agentId);
    }
  }

  /** One entry of `agent_performance`. */
  datatype AgentRow = AgentRow(name: string, totalLeads: nat, convertedLeads: nat, conversionRate: real)

  /** An agent's row: every lead assigned to the agent and those of them
      converted; an agent without leads gets 0 for both and a rate of 0. */
  function AgentRowFor(a: Agent, leads: seq<Lead>): (row: AgentRow)
    ensures row.totalLeads == AssignedLeadCount(leads, a.id)
    ensures row.convertedLeads <= row.totalLeads
    ensures row.totalLeads == 0 ==> row.convertedLeads == 0 && row.conversionRate == 0.0
    ensures 0.0 <= row.conversionRate <= 100.0
  {
    AssignedCountAgrees(leads, a.id);
    var total := Count(leads, AssignedTo(a.id));
    var converted := Count(leads, ConvertedFor(a.id));
    CountMonotone(leads, ConvertedFor(a.id), AssignedTo(a.id));
    AgentRow(a.name, total, converted, GuardedRate(converted, total))
  }

  /** The loop of `get_dashboard_metrics` that builds `agents_data`, one
      row per agent in table order. */
  method AgentPerformance(agents: seq<Agent>, leads: seq<Lead>) returns (rows: seq<AgentRow>)
    ensures |rows| == |agents|
    ensures forall i :: 0 <= i < |agents| ==> rows[i] == AgentRowFor(agents[i], leads)
  {
    rows := [];
    for i := 0 to |agents|
      invariant |rows| == i
      invariant forall k :: 0 <= k < i ==> rows[k] == AgentRowFor(agents[k], leads)
    {
      var a := agents[i];
      var total := Count(leads, AssignedTo(a.id));
      var converted := Count(leads, ConvertedFor(a.id));
      rows := rows + [AgentRow(a.name, total, converted, GuardedRate(converted, total))];
    }
  }

  /** The `metrics` object; the average response time is not modelled. */
  datatype DashboardMetrics = DashboardMetrics(
    periodDays: int,
    totalLeads: nat,
    newLeads: nat,
    convertedLeads: nat,
    conversionRate: real,
    recentInteractions: nat,
    leadsByStatus: map<string, nat>,
    leadsBySource: map<string, nat>,
    agentPerformance: seq<AgentRow>)

  /** The exception the `agent_performance` query raises as written:
      `func.case` builds a generic SQL function named `case` rather than
      SQLAlchemy's `case` construct, and that function does not take the
      keyword `else_`. */
  const CaseQueryError: Error :=
    Internal("Function.__init__() got an unexpected keyword argument 'else_'")

  /** The `agent_performance` query as written: it raises whatever the
      agent and lead tables hold. */
  function AgentQueryAsWritten(agents: seq<Agent>, leads: seq<Lead>): (r: Result<seq<AgentRow>>)
    ensures r == Err(CaseQueryError)
  {
    Err(CaseQueryError)
  }

  /** `get_dashboard_metrics` at time `now`, as written: the queries before
      the agent query only read the tables, the agent query raises, and the
      `except` answers 500 with the exception's text. No call returns
      figures, whatever the tables hold. */
  method GetDashboardMetrics(args: map<string, string>, now: int, leads: seq<Lead>, agents: seq<Agent>,
                             interactions: seq<Interaction>) returns (r: Result<DashboardMetrics>)
    ensures r == Err(CaseQueryError)
  {
    var rows := AgentQueryAsWritten(agents, leads);
    r := Err(rows.error);
  }

  /** The figures `get_dashboard_metrics` is meant to return at time `now`:
      the agent rows are the outer-join counts `AgentRowFor` defines. */
  method DashboardFigures(args: map<string, string>, now: int, leads: seq<Lead>, agents: seq<Agent>,
                          interactions: seq<Interaction>) returns (m: DashboardMetrics)
    ensures m.periodDays == DaysArg(args)
    ensures m.totalLeads == |leads|
    ensures m.newLeads == Count(leads, CreatedSince(PeriodStart(now, DaysArg(args))))
    ensures m.convertedLeads == Count(leads, ConvertedSince(PeriodStart(now, DaysArg(args))))
    ensures m.newLeads == 0 ==> m.conversionRate == 0.0
    ensures m.newLeads > 0 ==> m.conversionRate == Percent(m.convertedLeads, m.newLeads)
    ensures m.recentInteractions == Count(interactions, InteractionSince(PeriodStart(now, DaysArg(args))))
    ensures m.leadsByStatus == GroupCounts(Statuses(leads))
    ensures m.leadsBySource == GroupCounts(Sources(leads))
    ensures |m.agentPerformance| == |agents|
    ensures forall i :: 0 <= i < |agents| ==> m.agentPerformance[i] == AgentRowFor(agents[i], leads)
  {
    var days := DaysArg(args);
    var start := PeriodStart(now, days);
    var newLeads := Count(leads, CreatedSince(start));
    var statusCounts := GroupCounts(Statuses(leads));
    var sourceCounts := GroupCounts(Sources(leads));
    var converted := Count(leads, ConvertedSince(start));
    var rate := GuardedRate(converted, newLeads);
    var agentsData := AgentPerformance(agents, leads);
    var recent := Count(interactions, InteractionSince(start));
    m := DashboardMetrics(days, |leads|, newLeads, converted, rate, recent, statusCounts, sourceCounts, agentsData);
  }

  /** A lead with the given status and timestamps and nothing else set. */
  function SampleLead(status: string, createdAt: int, updatedAt: int): Lead
  {
    Lead(0, "", "", "", "", "", "", "", "", "", status, "", 0, NoList, None, None, NoList, "", None, None,
         createdAt, updatedAt, None)
  }

  /** The dashboard rate divides the leads converted in the period by the
      leads created in it, which are different sets of leads: one new lead
      and two older leads converted in the period give 200. */
  lemma DashboardRateCanPassHundred()
    ensures var leads := [SampleLead("new", 10, 10), SampleLead("converted", 0, 10), SampleLead("converted", 0, 10)];
      var newLeads := Count(leads, CreatedSince(5));
      var converted := Count(leads, ConvertedSince(5));
      newLeads == 1 && converted == 2 && GuardedRate(converted, newLeads) == 200.0
  {
    var leads := [SampleLead("new", 10, 10), SampleLead("converted", 0, 10), SampleLead("converted", 0, 10)];
    assert leads[1..][1..][1..] == [];
  }

  // ---------------------------------------------------------------------
  // The conversion funnel.
  // ---------------------------------------------------------------------

  const ContactedStatuses: set<string> := {"contacted", "qualified", "viewing_scheduled", "applied", "converted"}
  const QualifiedStatuses: set<string> := {"qualified", "viewing_scheduled", "applied", "converted"}
  const ViewingStatuses: set<string> := {"viewing_scheduled", "applied", "converted"}
  const AppliedStatuses: set<string> := {"applied", "converted"}
  /** `status == 'converted'` is membership in this set. */
  const ConvertedStatuses: set<string> := {"converted"}

  /** Leads created in the period whose status is one of `statuses`. */
  function InStage(start: int, statuses: set<string>): Lead -> bool
  {
    (l: Lead) => l.createdAt >= start && l.status in statuses
  }

  /** The `counts` object of the funnel. */
  datatype FunnelCounts = FunnelCounts(total: nat, contacted: nat, qualified: nat, viewing: nat, applied: nat, converted: nat)

  /** Each stage's statuses include the next stage's, so the counts never
      grow from one stage to the next, and none exceeds the number of
      leads. */
  function Funnel(leads: seq<Lead>, start: int): (f: FunnelCounts)
    ensures |leads| >= f.total >= f.contacted >= f.qualified >= f.viewing >= f.applied >= f.converted
  {
    CountMonotone(leads, InStage(start, ContactedStatuses), CreatedSince(start));
    CountMonotone(leads, InStage(start, QualifiedStatuses), InStage(start, ContactedStatuses));
    CountMonotone(leads, InStage(start, ViewingStatuses), InStage(start, QualifiedStatuses));
    CountMonotone(leads, InStage(start, AppliedStatuses), InStage(start, ViewingStatuses));
    CountMonotone(leads, InStage(start, ConvertedStatuses), InStage(start, AppliedStatuses));
    FunnelCounts(
      Count(leads, CreatedSince(start)),
      Count(leads, InStage(start, ContactedStatuses)),
      Count(leads, InStage(start, QualifiedStatuses)),
      Count(leads, InStage(start, ViewingStatuses)),
      Count(leads, InStage(start, AppliedStatuses)),
      Count(leads, InStage(start, ConvertedStatuses)))
  }


  /** The `rates` object: filled only when the period has leads. */
  function FunnelRates(f: FunnelCounts): (r: map<string, real>)
    ensures r == map[] <==> f.total == 0
    ensures f.total > 0 ==>
      r.Keys == {"contact_rate", "qualification_rate", "viewing_rate", "application_rate", "conversion_rate"}
  {
    if f.total > 0 then
      var r := map["contact_rate" := Percent(f.contacted, f.total),
          "qualification_rate" := Percent(f.qualified, f.total),
          "viewing_rate" := Percent(f.viewing, f.total),
          "application_rate" := Percent(f.applied, f.total),
          "conversion_rate" := Percent(f.converted, f.total)];
      assert "contact_rate" in r;
      r
    else map[]
  }

  /** The rates are empty exactly when the period has no leads; otherwise
      there are five of them, each a percentage, never growing along the
      funnel. */
  lemma FunnelRatesMeaning(leads: seq<Lead>, start: int)
    ensures var f := Funnel(leads, start);
      FunnelRates(f) == map[] <==> f.total == 0
    ensures var f := Funnel(leads, start);
      var r := FunnelRates(f);
      f.total > 0 ==>
        && r.Keys == {"contact_rate", "qualification_rate", "viewing_rate", "application_rate", "conversion_rate"}
        && 100.0 >= r["contact_rate"] >= r["qualification_rate"] >= r["viewing_rate"]
        && r["viewing_rate"] >= r["application_rate"] >= r["conversion_rate"] >= 0.0
  {
    var f := Funnel(leads, start);
    if f.total > 0 {
      assert "contact_rate" in FunnelRates(f);
      PercentBounds(f.contacted, f.contacted, f.total);
      PercentBounds(f.qualified, f.contacted, f.total);
      PercentBounds(f.viewing, f.qualified, f.total);
      PercentBounds(f.applied, f.viewing, f.total);
      PercentBounds(f.converted, f.applied, f.total);
    }
  }

  /** `get_conversion_funnel` at time `now`: the counts and the rates. */
  function GetConversionFunnel(args: map<string, string>, now: int, leads: seq<Lead>): (r: (FunnelCounts, map<string, real>))
    ensures r.0 == Funnel(leads, PeriodStart(now, DaysArg(args)))
    ensures r.1 == FunnelRates(r.0)
  {
    var f := Funnel(leads, PeriodStart(now, DaysArg(args)));
    (f, FunnelRates(f))
  }

  // ---------------------------------------------------------------------
  // The score distribution.
  // ---------------------------------------------------------------------

  datatype ScoreRange = ScoreRange(min: int, max: int, title: string)

  const ScoreRanges: seq<ScoreRange> := [
    ScoreRange(0, 20, "Very Low"),
    ScoreRange(21, 40, "Low"),
    ScoreRange(41, 60, "Medium"),
    ScoreRange(61, 80, "High"),
    ScoreRange(81, 100, "Very High")
  ]

  predicate InRange(r: ScoreRange, score: int)
  {
    r.min <= score <= r.max
  }

  /** The range a score from 0 to 100 falls in. */
  function RangeOf(score: int): (i: nat)
    requires 0 <= score <= 100
    ensures i < |ScoreRanges| && InRange(ScoreRanges[i], score)
  {
    if score <= 20 then 0 else if score <= 40 then 1 else if score <= 60 then 2 else if score <= 80 then 3 else 4
  }

  /** How many of the first `n` ranges hold `score`. */
  function Hits(score: int, n: nat): nat
    requires n <= |ScoreRanges|
  {
    if n == 0 then 0 else Hits(score, n - 1) + (if InRange(ScoreRanges[n - 1], score) then 1 else 0)
  }

  /** The ranges are disjoint and cover 0 to 100: a score in 0..100 lies in
      exactly one of them, any other score in none. */
  lemma ScoreRangesPartition(score: int)
    ensures Hits(score, |ScoreRanges|) == (if 0 <= score <= 100 then 1 else 0)
    ensures 0 <= score <= 100 ==>
      forall i :: 0 <= i < |ScoreRanges| ==> (InRange(ScoreRanges[i], score) <==> i == RangeOf(score))
  {
    assert Hits(score, 5) == Hits(score, 4) + (if InRange(ScoreRanges[4], score) then 1 else 0);
    assert Hits(score, 4) == Hits(score, 3) + (if InRange(ScoreRanges[3], score) then 1 else 0);
    assert Hits(score, 3) == Hits(score, 2) + (if InRange(ScoreRanges[2], score) then 1 else 0);
    assert Hits(score, 2) == Hits(score, 1) + (if InRange(ScoreRanges[1], score) then 1 else 0);
    assert Hits(score, 1) == if InRange(ScoreRanges[0], score) then 1 else 0;
  }

  function InBucket(r: ScoreRange): Lead -> bool
  {
    (l: Lead) => InRange(r, l.score)
  }

  function ConvertedInBucket(r: ScoreRange): Lead -> bool
  {
    (l: Lead) => InRange(r, l.score) && l.status == "converted"
  }

  /** One entry of `score_distribution`. */
  datatype ScoreBucket = ScoreBucket(bounds: ScoreRange, count: nat, converted: nat, conversionRate: real)

  /** The `range` key of a bucket: `f'{min_score}-{max_score}'`. */
  function RangeText(r: ScoreRange): string
  {
    IntToString(r.min) + "-" + IntToString(r.max)
  }

  /** A bucket's entry counts the leads in the range and the converted ones
      among them; the rate is a percentage, 0 for an empty bucket. */
  function BucketStats(leads: seq<Lead>, r: ScoreRange): (b: ScoreBucket)
    ensures b.bounds == r
    ensures b.count == Count(leads, InBucket(r)) && b.converted == Count(leads, ConvertedInBucket(r))
    ensures b.converted <= b.count <= |leads|
    ensures b.count == 0 ==> b.conversionRate == 0.0
    ensures 0.0 <= b.conversionRate <= 100.0
  {
    CountMonotone(leads, ConvertedInBucket(r), InBucket(r));
    var count := Count(leads, InBucket(r));
    var converted := Count(leads, ConvertedInBucket(r));
    ScoreBucket(r, count, converted, GuardedRate(converted, count))
  }

  /** The loop of `get_lead_scoring_analysis` that builds
      `score_distribution`, one entry per range in order. */
  method BucketsFor(leads: seq<Lead>, ranges: seq<ScoreRange>) returns (dist: seq<ScoreBucket>)
    ensures |dist| == |ranges|
    ensures forall i :: 0 <= i < |ranges| ==> dist[i] == BucketStats(leads, ranges[i])
  {
    dist := [];
    for i := 0 to |ranges|
      invariant |dist| == i
      invariant forall k :: 0 <= k < i ==> dist[k] == BucketStats(leads, ranges[k])
    {
      var r := ranges[i];
      var count := Count(leads, InBucket(r));
      var converted := Count(leads, ConvertedInBucket(r));
      dist := dist + [ScoreBucket(r, count, converted, GuardedRate(converted, count))];
    }
  }

  /** `score_distribution`: one entry per score range, in order. */
  method ScoreDistribution(leads: seq<Lead>) returns (dist: seq<ScoreBucket>)
    ensures |dist| == |ScoreRanges|
    ensures forall i :: 0 <= i < |ScoreRanges| ==> dist[i] == BucketStats(leads, ScoreRanges[i])
  {
    dist := BucketsFor(leads, ScoreRanges);
  }

  /** The counts of the first `n` buckets, added up. */
  function BucketTotal(leads: seq<Lead>, n: nat): nat
    requires n <= |ScoreRanges|
  {
    if n == 0 then 0 else BucketTotal(leads, n - 1) + Count(leads, InBucket(ScoreRanges[n - 1]))
  }

  lemma {:induction false} BucketTotalStep(leads: seq<Lead>, n: nat)
    requires leads != [] && n <= |ScoreRanges|
    ensures BucketTotal(leads, n) == BucketTotal(leads[1..], n) + Hits(leads[0].score, n)
  {
    if n > 0 {
      BucketTotalStep(leads, n - 1);
    }
  }

  lemma {:induction false} BucketTotalNone(n: nat)
    requires n <= |ScoreRanges|
    ensures BucketTotal([], n) == 0
  {
    if n > 0 {
      BucketTotalNone(n - 1);
    }
  }

  function Scored(): Lead -> bool
  {
    (l: Lead) => 0 <= l.score <= 100
  }

  /** The buckets count every lead whose score is between 0 and 100 exactly
      once, and no other lead. */
  lemma {:induction false} BucketsCountScoredLeads(leads: seq<Lead>)
    ensures BucketTotal(leads, |ScoreRanges|) == Count(leads, Scored())
  {
    if leads == [] {
      BucketTotalNone(|ScoreRanges|);
    } else {
      BucketsCountScoredLeads(leads[1..]);
      BucketTotalStep(leads, |ScoreRanges|);
      ScoreRangesPartition(leads[0].score);
      assert Scored()(leads[0]) <==> 0 <= leads[0].score <= 100;
      assert Count(leads, Scored()) == (if Scored()(leads[0]) then 1 else 0) + Count(leads[1..], Scored());
    }
  }
}
