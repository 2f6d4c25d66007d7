/** The lead, agent and interaction records, the lead score and the agent
    capacity test, and the store that holds the three tables. */
module LeadModel {
  import opened Common

  /** A text column holding a JSON-encoded list of strings: NULL (or empty
      text), text that decodes to a list, or text that `json.loads` rejects.
      Any non-empty text is truthy, so `Decoded([])` (the text "[]") is truthy. */
  datatype JsonList = NoList | Decoded(items: seq<string>) | Malformed

  /** `json.loads` on a column the code has already found truthy. */
  function Decode(j: JsonList): (r: Result<seq<string>>)
    requires !j.NoList?
    ensures r.Ok? <==> j.Decoded?
    ensures j.Decoded? ==> r.value == j.items
  {
    match j
    case Decoded(items) => Ok(items)
    case Malformed => Err(Internal("JSONDecodeError"))
  }

  /** An optional integer column used as a condition: NULL and 0 are false. */
  predicate IntTruthy(o: Option<int>)
  {
    o.Some? && o.value != 0
  }

  /** Nullable text columns are `string`s, with "" standing for NULL; the
      code only ever tests them for truthiness, where the two agree.
      Timestamps are integer seconds. */
  datatype Lead = Lead(
    id: int,
    name: string,
    phone: string,
    email: string,
    instagramHandle: string,
    whatsappNumber: string,
    source: string,
    sourcePostId: string,
    sourcePropertyId: string,
    originalMessage: string,
    status: string,
    priority: string,
    score: int,
    interestedProperties: JsonList,
    budgetMin: Option<int>,
    budgetMax: Option<int>,
    preferredAreas: JsonList,
    propertyType: string,
    moveInDate: Option<int>,
    assignedAgentId: Option<int>,
    createdAt: int,
    updatedAt: int,
    lastContactAt: Option<int>)

  datatype Agent = Agent(
    id: int,
    name: string,
    email: string,
    phone: string,
    whatsappNumber: string,
    specializationAreas: JsonList,
    specializationTypes: JsonList,
    languages: JsonList,
    totalLeads: int,
    convertedLeads: int,
    isActive: bool,
    maxLeads: int)

  datatype Interaction = Interaction(
    leadId: int,
    kind: string,
    channel: string,
    direction: string,
    message: string,
    agentId: Option<int>,
    isAutomated: bool,
    createdAt: int)

  const SecondsPerDay: int := 86400

  // ---------------------------------------------------------------------
  // Lead score: five point buckets, summed and capped at 100.
  // ---------------------------------------------------------------------

  /** Contact completeness: 5 for each of phone, email, name and WhatsApp
      number; the Instagram handle earns nothing. */
  function ContactPoints(l: Lead): (p: int)
    ensures 0 <= p <= 20
  {
    (if |l.phone| > 0 then 5 else 0) + (if |l.email| > 0 then 5 else 0)
    + (if |l.name| > 0 then 5 else 0) + (if |l.whatsappNumber| > 0 then 5 else 0)
  }

  /** Engagement: a message longer than 50 characters, both budget bounds
      (a 0 counts as missing), a preferred-areas column with any text, a
      move-in date. */
  function EngagementPoints(l: Lead): (p: int)
    ensures 0 <= p <= 30
  {
    (if |l.originalMessage| > 50 then 10 else 0)
    + (if IntTruthy(l.budgetMin) && IntTruthy(l.budgetMax) then 10 else 0)
    + (if !l.preferredAreas.NoList? then 5 else 0)
    + (if l.moveInDate.Some? then 5 else 0)
  }

  /** Interaction history: 5 per recorded interaction, at most 25. */
  function InteractionPoints(count: nat): (p: int)
    ensures 0 <= p <= 25
    ensures p == 5 * count || (p == 25 && 5 * count >= 25)
  {
    if count * 5 < 25 then count * 5 else 25
  }

  /** Whole days between a timestamp and now, as `timedelta.days` gives them
      (rounded toward minus infinity). */
  function DaysSince(t: int, now: int): (d: int)
    ensures d * SecondsPerDay <= now - t < d * SecondsPerDay + SecondsPerDay
  {
    (now - t) / SecondsPerDay
  }

  /** Recency: 15, 10 or 5 points for a last contact at most 1, 3 or 7 days
      ago; the first threshold that holds wins. */
  function RecencyPoints(lastContactAt: Option<int>, now: int): (p: int)
    ensures p in {0, 5, 10, 15}
    ensures lastContactAt.None? ==> p == 0
  {
    match lastContactAt
    case None => 0
    case Some(t) =>
      var days := DaysSince(t, now);
      if days <= 1 then 15 else if days <= 3 then 10 else if days <= 7 then 5 else 0
  }

  /** Property interest: 2 per entry of the decoded list (duplicates
      included), at most 10; undecodable text raises. */
  function PropertyPoints(interested: JsonList): (r: Result<int>)
    ensures r.Ok? <==> !interested.Malformed?
    ensures r.Ok? ==> 0 <= r.value <= 10
  {
    match interested
    case NoList => Ok(0)
    case Decoded(items) => Ok(if |items| * 2 < 10 then |items| * 2 else 10)
    case Malformed => Err(Internal("JSONDecodeError"))
  }

  /** The score `Lead.update_score` computes, given the number of stored
      interactions for the lead and the current time. */
  function LeadScore(l: Lead, interactionCount: nat, now: int): (r: Result<int>)
    ensures r.Ok? <==> !l.interestedProperties.Malformed?
    ensures r.Ok? ==> 0 <= r.value <= 100
  {
    match PropertyPoints(l.interestedProperties)
    case Err(e) => Err(e)
    case Ok(pp) =>
      var total := ContactPoints(l) + EngagementPoints(l) + InteractionPoints(interactionCount)
                   + RecencyPoints(l.lastContactAt, now) + pp;
      Ok(if total < 100 then total else 100)
  }

  /** `Lead.update_score`: accumulates the buckets into a local total, stores
      the capped total in `score` and returns the updated lead. */
  method UpdateScore(l: Lead, interactionCount: nat, now: int) returns (r: Result<Lead>)
    ensures r.Ok? <==> LeadScore(l, interactionCount, now).Ok?
    ensures r.Ok? ==> r.value == l.(score := LeadScore(l, interactionCount, now).value)
  {
    var score := 0;
    score := AddContactPoints(l, score);
    score := AddEngagementPoints(l, score);
    score := score + (if interactionCount * 5 < 25 then interactionCount * 5 else 25);
    score := AddRecencyPoints(l, now, score);

    ghost var before := score;
    if !l.interestedProperties.NoList? {
      match l.interestedProperties
      case Malformed =>
        return Err(Internal("JSONDecodeError"));
      case Decoded(properties) =>
        score := score + (if |properties| * 2 < 10 then |properties| * 2 else 10);
    }
    assert score == before + PropertyPoints(l.interestedProperties).value;
    ScoreIsBucketSum(l, interactionCount, now);

    r := Ok(l.(score := if score < 100 then score else 100));
  }

  /** The contact block of `update_score`. */
  method AddContactPoints(l: Lead, score: int) returns (s: int)
    ensures s == score + ContactPoints(l)
  {
    s := score;
    if |l.phone| > 0 { s := s + 5; }
    if |l.email| > 0 { s := s + 5; }
    if |l.name| > 0 { s := s + 5; }
    if |l.whatsappNumber| > 0 { s := s + 5; }
  }

  /** The engagement block of `update_score`. */
  method AddEngagementPoints(l: Lead, score: int) returns (s: int)
    ensures s == score + EngagementPoints(l)
  {
    s := score;
    if |l.originalMessage| > 50 { s := s + 10; }
    if IntTruthy(l.budgetMin) && IntTruthy(l.budgetMax) { s := s + 10; }
    if !l.preferredAreas.NoList? { s := s + 5; }
    if l.moveInDate.Some? { s := s + 5; }
  }

  /** The recency block of `update_score`. */
  method AddRecencyPoints(l: Lead, now: int, score: int) returns (s: int)
    ensures s == score + RecencyPoints(l.lastContactAt, now)
  {
    s := score;
    if l.lastContactAt.Some? {
      var days := (now - l.lastContactAt.value) / SecondsPerDay;
      if days <= 1 { s := s + 15; }
      else if days <= 3 { s := s + 10; }
      else if days <= 7 { s := s + 5; }
    }
  }

  /** The buckets add up to at most 100, so the cap never changes the sum. */
  lemma ScoreIsBucketSum(l: Lead, interactionCount: nat, now: int)
    requires !l.interestedProperties.Malformed?
    ensures LeadScore(l, interactionCount, now).value
         == ContactPoints(l) + EngagementPoints(l) + InteractionPoints(interactionCount)
            + RecencyPoints(l.lastContactAt, now) + PropertyPoints(l.interestedProperties).value
  {
  }

  /** Filling in any one of phone, email, name or WhatsApp number adds
      exactly 5; the Instagram handle never changes the score. */
  lemma ContactFieldWorthFive(l: Lead, n: nat, now: int, v: string)
    requires !l.interestedProperties.Malformed? && |v| > 0
    ensures |l.phone| == 0 ==> LeadScore(l.(phone := v), n, now).value == LeadScore(l, n, now).value + 5
    ensures |l.email| == 0 ==> LeadScore(l.(email := v), n, now).value == LeadScore(l, n, now).value + 5
    ensures |l.name| == 0 ==> LeadScore(l.(name := v), n, now).value == LeadScore(l, n, now).value + 5
    ensures |l.whatsappNumber| == 0 ==>
      LeadScore(l.(whatsappNumber := v), n, now).value == LeadScore(l, n, now).value + 5
    ensures LeadScore(l.(instagramHandle := v), n, now) == LeadScore(l, n, now)
  {
    if |l.phone| == 0 {
      ContactShift(l, l.(phone := v), n, now);
    }
    if |l.email| == 0 {
      ContactShift(l, l.(email := v), n, now);
    }
    if |l.name| == 0 {
      ContactShift(l, l.(name := v), n, now);
    }
    if |l.whatsappNumber| == 0 {
      ContactShift(l, l.(whatsappNumber := v), n, now);
    }
    ContactShift(l, l.(instagramHandle := v), n, now);
  }

  /** Two leads that differ only in their contact fields differ in score
      exactly by their contact points. */
  lemma ContactShift(l: Lead, m: Lead, n: nat, now: int)
    requires !l.interestedProperties.Malformed?
    requires m.originalMessage == l.originalMessage && m.budgetMin == l.budgetMin && m.budgetMax == l.budgetMax
    requires m.preferredAreas == l.preferredAreas && m.moveInDate == l.moveInDate
    requires m.lastContactAt == l.lastContactAt && m.interestedProperties == l.interestedProperties
    ensures LeadScore(m, n, now).value - LeadScore(l, n, now).value == ContactPoints(m) - ContactPoints(l)
  {
    ScoreIsBucketSum(l, n, now);
    ScoreIsBucketSum(m, n, now);
  }

  /** The message bonus needs more than 50 characters: a message of exactly
      50 earns nothing, one of 51 earns 10. */
  lemma MessageBonusThreshold(l: Lead, n: nat, now: int, m: string)
    requires !l.interestedProperties.Malformed? && |l.originalMessage| <= 50
    ensures |m| > 50 ==> LeadScore(l.(originalMessage := m), n, now).value == LeadScore(l, n, now).value + 10
    ensures |m| <= 50 ==> LeadScore(l.(originalMessage := m), n, now) == LeadScore(l, n, now)
  {
    var k := l.(originalMessage := m);
    ScoreIsBucketSum(l, n, now);
    ScoreIsBucketSum(k, n, now);
    assert ContactPoints(k) == ContactPoints(l);
    assert EngagementPoints(k) == EngagementPoints(l) + (if |m| > 50 then 10 else 0);
  }

  /** The budget bonus needs both bounds present and non-zero. */
  lemma BudgetBonusNeedsBoth(l: Lead, n: nat, now: int)
    requires !l.interestedProperties.Malformed?
    ensures EngagementPoints(l) >= 10 || !(IntTruthy(l.budgetMin) && IntTruthy(l.budgetMax))
    ensures l.budgetMin == Some(0) || l.budgetMax == Some(0) ==>
      LeadScore(l, n, now) == LeadScore(l.(budgetMin := None), n, now)
  {
  }

  /** More recorded interactions never lower the score, and beyond five
      they no longer raise it. */
  lemma ScoreMonotoneInInteractions(l: Lead, n: nat, m: nat, now: int)
    requires !l.interestedProperties.Malformed? && n <= m
    ensures LeadScore(l, n, now).value <= LeadScore(l, m, now).value
    ensures n >= 5 ==> LeadScore(l, n, now) == LeadScore(l, m, now)
  {
  }

  /** The recency buckets by whole days since the last contact: exactly one
      day ago earns 15, two days 10, seven days 5, eight days nothing. */
  lemma RecencyByDays(t: int, now: int)
    ensures DaysSince(t, now) <= 1 ==> RecencyPoints(Some(t), now) == 15
    ensures 2 <= DaysSince(t, now) <= 3 ==> RecencyPoints(Some(t), now) == 10
    ensures 4 <= DaysSince(t, now) <= 7 ==> RecencyPoints(Some(t), now) == 5
    ensures DaysSince(t, now) > 7 ==> RecencyPoints(Some(t), now) == 0
    ensures now - t == SecondsPerDay ==> RecencyPoints(Some(t), now) == 15
    ensures now - t == 2 * SecondsPerDay ==> RecencyPoints(Some(t), now) == 10
  {
  }

  /** The property bucket counts list entries, not distinct ids. */
  lemma PropertyPointsCountDuplicates(p: string)
    ensures PropertyPoints(Decoded([p, p])) == Ok(4)
    ensures PropertyPoints(Decoded([p, p, p, p, p, p])) == Ok(10)
  {
  }

  // ---------------------------------------------------------------------
  // Agent capacity.
  // ---------------------------------------------------------------------

  /** The statuses that occupy an agent's capacity. */
  predicate IsActiveStatus(status: string)
  {
    status == "new" || status == "contacted" || status == "qualified" || status == "viewing_scheduled"
  }

  predicate ActiveFor(l: Lead, agentId: int)
  {
    l.assignedAgentId == Some(agentId) && IsActiveStatus(l.status)
  }

  /** Leads assigned to `agentId` whose status is still active. */
  function ActiveLeadCount(leads: seq<Lead>, agentId: int): (n: nat)
    ensures n <= |leads|
  {
    if leads == [] then 0
    else (if ActiveFor(leads[0], agentId) then 1 else 0) + ActiveLeadCount(leads[1..], agentId)
  }

  /** All leads assigned to `agentId`, whatever their status (`agent.leads`). */
  function AssignedLeadCount(leads: seq<Lead>, agentId: int): (n: nat)
    ensures n <= |leads|
    ensures ActiveLeadCount(leads, agentId) <= n
  {
    if leads == [] then 0
    else (if leads[0].assignedAgentId == Some(agentId) then 1 else 0) + AssignedLeadCount(leads[1..], agentId)
  }

  /** An agent no lead names has no leads. */
  lemma {:induction false} NoneAssignedTo(leads: seq<Lead>, id: int)
    requires forall x :: 0 <= x < |leads| ==> leads[x].assignedAgentId != Some(id)
    ensures AssignedLeadCount(leads, id) == 0
  {
    if leads != [] {
      assert forall x :: 0 <= x < |leads[1..]| ==> leads[1..][x] == leads[x + 1];
      NoneAssignedTo(leads[1..], id);
    }
  }

  /** `Agent.can_take_lead`: an active agent below its `max_leads` active
      leads. An inactive agent, or one whose limit is not positive, never
      qualifies; an active agent whose limit exceeds the number of leads
      always does. */
  predicate CanTakeLead(a: Agent, leads: seq<Lead>)
    ensures CanTakeLead(a, leads) ==> a.isActive && a.maxLeads > 0
    ensures a.isActive && a.maxLeads > |leads| ==> CanTakeLead(a, leads)
  {
    a.isActive && ActiveLeadCount(leads, a.id) < a.maxLeads
  }

  /** Replacing one lead changes an agent's active count by what the old and
      the new lead contribute. */
  lemma {:induction false} ActiveLeadCountUpdate(leads: seq<Lead>, i: nat, v: Lead, agentId: int)
    requires i < |leads|
    ensures ActiveLeadCount(leads[i := v], agentId)
         == ActiveLeadCount(leads, agentId) - (if ActiveFor(leads[i], agentId) then 1 else 0)
            + (if ActiveFor(v, agentId) then 1 else 0)
  {
    if i > 0 {
      assert leads[i := v][1..] == leads[1..][i - 1 := v];
      ActiveLeadCountUpdate(leads[1..], i - 1, v, agentId);
    } else {
      assert leads[i := v][1..] == leads[1..];
    }
  }

  lemma {:induction false} ActiveLeadCountAppend(leads: seq<Lead>, v: Lead, agentId: int)
    ensures ActiveLeadCount(leads + [v], agentId)
         == ActiveLeadCount(leads, agentId) + (if ActiveFor(v, agentId) then 1 else 0)
  {
    if leads != [] {
      assert (leads + [v])[1..] == leads[1..] + [v];
      ActiveLeadCountAppend(leads[1..], v, agentId);
    } else {
      assert [v][1..] == [];
    }
  }

  /** Number of stored interactions that belong to `leadId`. */
  function InteractionCount(interactions: seq<Interaction>, leadId: int): (n: nat)
    ensures n <= |interactions|
  {
    if interactions == [] then 0
    else (if interactions[0].leadId == leadId then 1 else 0) + InteractionCount(interactions[1..], leadId)
  }

  lemma {:induction false} InteractionCountAppend(interactions: seq<Interaction>, x: Interaction, leadId: int)
    ensures InteractionCount(interactions + [x], leadId)
         == InteractionCount(interactions, leadId) + (if x.leadId == leadId then 1 else 0)
  {
    if interactions != [] {
      assert (interactions + [x])[1..] == interactions[1..] + [x];
      InteractionCountAppend(interactions[1..], x, leadId);
    } else {
      assert [x][1..] == [];
    }
  }

  // ---------------------------------------------------------------------
  // The store.
  // ---------------------------------------------------------------------

  /** The primary key of a lead row. */
  function LeadId(l: Lead): int
  {
    l.id
  }

  /** The primary key of an agent row. */
  function AgentId(a: Agent): int
  {
    a.id
  }

  /** Index of the first row with the given id, as a primary-key lookup. */
  function FindById<T>(rows: seq<T>, idOf: T -> int, id: int): (r: Option<nat>)
    ensures r.Some? ==> r.value < |rows| && idOf(rows[r.value]) == id
    ensures r.None? <==> forall k :: 0 <= k < |rows| ==> idOf(rows[k]) != id
  {
    if rows == [] then None
    else if idOf(rows[0]) == id then Some(0)
    else match FindById(rows[1..], idOf, id)
      case None => None
      case Some(k) => Some(k + 1)
  }

  /** The id the database hands a newly inserted row: one more than the
      largest id in use. */
  function NextId<T>(rows: seq<T>, idOf: T -> int): (id: int)
    ensures forall k :: 0 <= k < |rows| ==> idOf(rows[k]) < id
  {
    if rows == [] then 1
    else var rest := NextId(rows[1..], idOf);
      if idOf(rows[0]) < rest then rest else idOf(rows[0]) + 1
  }

  ghost predicate UniqueLeadIds(leads: seq<Lead>)
  {
    forall i, j :: 0 <= i < j < |leads| ==> leads[i].id != leads[j].id
  }

  ghost predicate UniqueAgents(agents: seq<Agent>)
  {
    forall i, j :: 0 <= i < j < |agents| ==> agents[i].id != agents[j].id && agents[i].email != agents[j].email
  }

  /** The leads, agents and interactions tables. Lead and agent ids are
      primary keys and agent emails are unique. */
  class Database {
    var leads: seq<Lead>
    var agents: seq<Agent>
    var interactions: seq<Interaction>

    ghost predicate Valid()
      reads this
    {
      UniqueLeadIds(leads) && UniqueAgents(agents)
    }

    constructor ()
      ensures Valid() && leads == [] && agents == [] && interactions == []
    {
      leads, agents, interactions := [], [], [];
    }
  }
}
