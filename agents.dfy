/** The agent routes: creating an agent, assigning a lead to an agent by
    hand, and the sweep that auto-assigns every unassigned open lead. */
module AgentRoutes {
  import opened Common
  import opened LeadModel
  import opened LeadRoutes

  // ---------------------------------------------------------------------
  // Creating an agent.
  // ---------------------------------------------------------------------

  /** The JSON body of a create request. Missing or empty strings are "",
      a missing `max_leads` or `is_active` is `None`, and a missing or empty
      list is `[]`. */
  datatype AgentPayload = AgentPayload(
    name: string,
    email: string,
    phone: string,
    whatsappNumber: string,
    maxLeads: Option<int>,
    isActive: Option<bool>,
    specializationAreas: seq<string>,
    specializationTypes: seq<string>,
    languages: seq<string>)

  /** A list stored only when truthy (non-empty). */
  function ListColumn(items: seq<string>): (j: JsonList)
    ensures j.Decoded? <==> |items| > 0
    ensures j.Decoded? ==> j.items == items
    ensures !j.Malformed?
  {
    if |items| > 0 then Decoded(items) else NoList
  }

  /** The new row: the payload's fields, the list columns stored only
      when non-empty, no leads counted yet, and the defaults for a missing
      `max_leads` (50) and `is_active` (true). */
  function AgentFromPayload(p: AgentPayload, id: int): (a: Agent)
    ensures a.id == id && a.name == p.name && a.email == p.email
    ensures a.totalLeads == 0 && a.convertedLeads == 0
    ensures p.maxLeads.None? ==> a.maxLeads == 50
    ensures p.isActive.None? ==> a.isActive
    ensures !a.specializationAreas.Malformed? && !a.specializationTypes.Malformed? && !a.languages.Malformed?
  {
    Agent(id, p.name, p.email, p.phone, p.whatsappNumber,
          ListColumn(p.specializationAreas), ListColumn(p.specializationTypes), ListColumn(p.languages),
          0, 0, if p.isActive.Some? then p.isActive.value else true,
          if p.maxLeads.Some? then p.maxLeads.value else 50)
  }

  /** `create_agent`: name and email are required and the email must be new;
      `max_leads` defaults to 50 and `is_active` to true. */
  method CreateAgent(db: Database, p: AgentPayload) returns (r: Result<Agent>)
    requires db.Valid()
    modifies db
    ensures db.Valid()
    ensures r.Err? ==> unchanged(db)
    ensures |p.name| == 0 || |p.email| == 0 ==> r == Err(BadRequest("Name and email are required"))
    ensures |p.name| > 0 && |p.email| > 0 && (exists k :: 0 <= k < |old(db.agents)| && old(db.agents)[k].email == p.email)
            ==> r == Err(BadRequest("Agent with this email already exists"))
    ensures r.Ok? ==> |p.name| > 0 && |p.email| > 0
                      && (forall k :: 0 <= k < |old(db.agents)| ==> old(db.agents)[k].email != p.email)
    ensures r.Ok? ==> db.agents == old(db.agents) + [r.value] && db.leads == old(db.leads)
                      && db.interactions == old(db.interactions)
    ensures r.Ok? ==> r.value.name == p.name && r.value.email == p.email
                      && r.value.maxLeads == (if p.maxLeads.None? then 50 else p.maxLeads.value)
                      && r.value.isActive == (p.isActive.None? || p.isActive.value)
                      && r.value.totalLeads == 0 && r.value.convertedLeads == 0
                      && r.value.phone == p.phone && r.value.whatsappNumber == p.whatsappNumber
                      && r.value.specializationAreas == ListColumn(p.specializationAreas)
                      && r.value.specializationTypes == ListColumn(p.specializationTypes)
                      && r.value.languages == ListColumn(p.languages)
    ensures r.Ok? ==> forall k :: 0 <= k < |old(db.agents)| ==> old(db.agents)[k].id < r.value.id
  {
    if |p.name| == 0 || |p.email| == 0 {
      return Err(BadRequest("Name and email are required"));
    }
    var existing := FirstIndex(db.agents, (a: Agent) => a.email == p.email);
    if existing.Some? {
      return Err(BadRequest("Agent with this email already exists"));
    }
    var agent := AgentFromPayload(p, NextId(db.agents, AgentId));
    db.agents := db.agents + [agent];
    r := Ok(agent);
  }

  // ---------------------------------------------------------------------
  // Manual assignment.
  // ---------------------------------------------------------------------

  /** The automated interaction recorded for an assignment. */
  function AssignmentRecord(leadId: int, a: Agent, text: string, now: int): Interaction
  {
    Interaction(leadId, "assignment", "system", "outbound", text + a.name, Some(a.id), true, now)
  }

  /** The text of werkzeug's `NotFound`, which `get_or_404` raises. */
  const NotFoundText: string :=
    "404 Not Found: The requested URL was not found on the server. If you entered the URL manually please check your spelling and try again."

  /** `assign_lead`: both ids are required (0 counts as missing), both rows
      must exist, and the agent must be able to take a lead; then the lead
      is assigned and one assignment interaction is recorded. A missing row
      makes `get_or_404` raise inside the `try`, so the route rolls back and
      answers 500 with the text of the 404. */
  method AssignLead(db: Database, leadId: Option<int>, agentId: Option<int>, now: int) returns (r: Result<Lead>)
    requires db.Valid()
    modifies db
    ensures db.Valid()
    ensures r.Err? ==> unchanged(db)
    ensures !IntTruthy(leadId) || !IntTruthy(agentId) ==> r == Err(BadRequest("Lead ID and Agent ID are required"))
    ensures IntTruthy(leadId) && IntTruthy(agentId)
            && (FindById(old(db.leads), LeadId, leadId.value).None? || FindById(old(db.agents), AgentId, agentId.value).None?)
            ==> r == Err(Internal(NotFoundText))
    ensures r.Ok? ==> IntTruthy(leadId) && IntTruthy(agentId)
                      && FindById(old(db.leads), LeadId, leadId.value).Some? && FindById(old(db.agents), AgentId, agentId.value).Some?
    ensures IntTruthy(leadId) && IntTruthy(agentId)
            && FindById(old(db.leads), LeadId, leadId.value).Some? && FindById(old(db.agents), AgentId, agentId.value).Some?
            ==> var a := old(db.agents)[FindById(old(db.agents), AgentId, agentId.value).value];
                (r.Ok? <==> CanTakeLead(a, old(db.leads)))
                && (r.Err? ==> r == Err(BadRequest("Agent has reached maximum lead capacity")))
    ensures r.Ok? ==>
      var k := FindById(old(db.leads), LeadId, leadId.value).value;
      var a := old(db.agents)[FindById(old(db.agents), AgentId, agentId.value).value];
      && db.leads == old(db.leads)[k := old(db.leads)[k].(assignedAgentId := Some(a.id), updatedAt := now)]
      && r.value == db.leads[k]
      && db.agents == old(db.agents)
      && db.interactions == old(db.interactions) + [AssignmentRecord(r.value.id, a, "Lead assigned to ", now)]
      && ActiveLeadCount(db.leads, a.id) <= a.maxLeads
  {
    if !IntTruthy(leadId) || !IntTruthy(agentId) {
      return Err(BadRequest("Lead ID and Agent ID are required"));
    }
    var li := FindById(db.leads, LeadId, leadId.value);
    if li.None? {
      return Err(Internal(NotFoundText));
    }
    var ai := FindById(db.agents, AgentId, agentId.value);
    if ai.None? {
      return Err(Internal(NotFoundText));
    }
    var agent := db.agents[ai.value];
    if !CanTakeLead(agent, db.leads) {
      return Err(BadRequest("Agent has reached maximum lead capacity"));
    }
    var k := li.value;
    var updated := db.leads[k].(assignedAgentId := Some(agent.id), updatedAt := now);
    ActiveLeadCountUpdate(db.leads, k, updated, agent.id);
    db.leads := db.leads[k := updated];
    db.interactions := db.interactions + [AssignmentRecord(updated.id, agent, "Lead assigned to ", now)];
    r := Ok(updated);
  }

  // ---------------------------------------------------------------------
  // The order in which the sweep visits leads.
  // ---------------------------------------------------------------------

  /** Strict string order by code points, as the database compares text. */
  predicate LexLess(a: string, b: string)
  {
    if |a| == 0 then |b| > 0
    else if |b| == 0 then false
    else if a[0] != b[0] then a[0] < b[0]
    else LexLess(a[1..], b[1..])
  }

  lemma {:induction false} LexLessIrreflexive(a: string)
    ensures !LexLess(a, a)
  {
    if |a| > 0 {
      LexLessIrreflexive(a[1..]);
    }
  }

  lemma {:induction false} LexLessTransitive(a: string, b: string, c: string)
    requires LexLess(a, b) && LexLess(b, c)
    ensures LexLess(a, c)
  {
    if |a| > 0 && |b| > 0 && |c| > 0 && a[0] == b[0] && b[0] == c[0] {
      LexLessTransitive(a[1..], b[1..], c[1..]);
    }
  }

  lemma {:induction false} LexLessTotal(a: string, b: string)
    requires a != b
    ensures LexLess(a, b) || LexLess(b, a)
  {
    if |a| > 0 && |b| > 0 && a[0] == b[0] {
      assert a == [a[0]] + a[1..] && b == [b[0]] + b[1..];
      LexLessTotal(a[1..], b[1..]);
    }
  }

  /** `ORDER BY priority DESC, created_at ASC`: `a` may be visited before `b`. */
  predicate VisitsFirst(a: Lead, b: Lead)
  {
    LexLess(b.priority, a.priority) || (a.priority == b.priority && a.createdAt <= b.createdAt)
  }

  lemma VisitsFirstTransitive(a: Lead, b: Lead, c: Lead)
    requires VisitsFirst(a, b) && VisitsFirst(b, c)
    ensures VisitsFirst(a, c)
  {
    if LexLess(c.priority, b.priority) && LexLess(b.priority, a.priority) {
      LexLessTransitive(c.priority, b.priority, a.priority);
    }
  }

  lemma VisitsFirstTotal(a: Lead, b: Lead)
    ensures VisitsFirst(a, b) || VisitsFirst(b, a)
  {
    if a.priority != b.priority {
      LexLessTotal(a.priority, b.priority);
    }
  }

  /** With the fixed priorities, string order puts "urgent" first, then
      "medium", "low" and "high" last. */
  lemma PriorityStringOrder()
    ensures LexLess("medium", "urgent") && LexLess("low", "medium") && LexLess("high", "low")
  {
  }

  predicate InRange(s: seq<nat>, n: nat)
  {
    forall i :: 0 <= i < |s| ==> s[i] < n
  }

  predicate IsSweepCandidate(l: Lead)
  {
    l.assignedAgentId.None? && (l.status == "new" || l.status == "contacted")
  }

  /** Positions from `k` on of the leads with no agent and status new or
      contacted, in store order. */
  function CandidatesFrom(leads: seq<Lead>, k: nat): (r: seq<nat>)
    requires k <= |leads|
    ensures forall i :: 0 <= i < |r| ==> k <= r[i] < |leads| && IsSweepCandidate(leads[r[i]])
    ensures forall x :: k <= x < |leads| && IsSweepCandidate(leads[x]) ==> x in r
    ensures forall i, j :: 0 <= i < j < |r| ==> r[i] < r[j]
    decreases |leads| - k
  {
    if k == |leads| then []
    else if IsSweepCandidate(leads[k]) then [k] + CandidatesFrom(leads, k + 1)
    else CandidatesFrom(leads, k + 1)
  }

  function InsertVisit(leads: seq<Lead>, x: nat, s: seq<nat>): (r: seq<nat>)
    requires x < |leads| && InRange(s, |leads|)
    ensures |r| == |s| + 1 && multiset(r) == multiset(s) + multiset{x} && InRange(r, |leads|)
  {
    if s == [] || VisitsFirst(leads[x], leads[s[0]]) then [x] + s
    else
      assert s == [s[0]] + s[1..];
      [s[0]] + InsertVisit(leads, x, s[1..])
  }

  function SortVisits(leads: seq<Lead>, s: seq<nat>): (r: seq<nat>)
    requires InRange(s, |leads|)
    ensures |r| == |s| && multiset(r) == multiset(s) && InRange(r, |leads|)
  {
    if s == [] then []
    else
      assert s == [s[0]] + s[1..];
      InsertVisit(leads, s[0], SortVisits(leads, s[1..]))
  }

  predicate VisitSorted(leads: seq<Lead>, s: seq<nat>)
    requires InRange(s, |leads|)
  {
    forall i, j :: 0 <= i < j < |s| ==> VisitsFirst(leads[s[i]], leads[s[j]])
  }

  lemma {:induction false} InsertVisitSorted(leads: seq<Lead>, x: nat, s: seq<nat>)
    requires x < |leads| && InRange(s, |leads|) && VisitSorted(leads, s)
    ensures VisitSorted(leads, InsertVisit(leads, x, s))
  {
    var r := InsertVisit(leads, x, s);
    if s == [] {
    } else if VisitsFirst(leads[x], leads[s[0]]) {
      forall i, j | 0 <= i < j < |r| ensures VisitsFirst(leads[r[i]], leads[r[j]]) {
        if i == 0 && j > 1 {
          VisitsFirstTransitive(leads[x], leads[s[0]], leads[s[j - 1]]);
        }
      }
    } else {
      VisitsFirstTotal(leads[x], leads[s[0]]);
      var t := InsertVisit(leads, x, s[1..]);
      InsertVisitSorted(leads, x, s[1..]);
      forall i, j | 0 <= i < j < |r| ensures VisitsFirst(leads[r[i]], leads[r[j]]) {
        if i == 0 {
          var y := t[j - 1];
          assert y in multiset(t);
          if y != x {
            assert y in s[1..];
            var m :| 0 <= m < |s[1..]| && s[1..][m] == y;
            assert s[m + 1] == y;
          }
        }
      }
    }
  }

  lemma {:induction false} SortVisitsSorted(leads: seq<Lead>, s: seq<nat>)
    requires InRange(s, |leads|)
    ensures VisitSorted(leads, SortVisits(leads, s))
  {
    if s != [] {
      SortVisitsSorted(leads, s[1..]);
      InsertVisitSorted(leads, s[0], SortVisits(leads, s[1..]));
    }
  }

  lemma {:induction false} InsertVisitDistinct(leads: seq<Lead>, x: nat, s: seq<nat>)
    requires x < |leads| && InRange(s, |leads|) && Distinct(s) && x !in s
    ensures Distinct(InsertVisit(leads, x, s))
  {
    if s != [] && !VisitsFirst(leads[x], leads[s[0]]) {
      var t := InsertVisit(leads, x, s[1..]);
      InsertVisitDistinct(leads, x, s[1..]);
      assert s[0] !in multiset(t);
    }
  }

  lemma {:induction false} SortVisitsDistinct(leads: seq<Lead>, s: seq<nat>)
    requires InRange(s, |leads|) && Distinct(s)
    ensures Distinct(SortVisits(leads, s))
  {
    if s != [] {
      SortVisitsDistinct(leads, s[1..]);
      assert s[0] !in multiset(SortVisits(leads, s[1..]));
      InsertVisitDistinct(leads, s[0], SortVisits(leads, s[1..]));
    }
  }

  /** The leads the sweep visits, in the order it visits them. */
  function VisitOrder(leads: seq<Lead>): (r: seq<nat>)
    ensures InRange(r, |leads|)
  {
    SortVisits(leads, CandidatesFrom(leads, 0))
  }

  /** The sweep visits exactly the unassigned leads with status new or
      contacted ... */
  lemma VisitOrderMembers(leads: seq<Lead>, x: nat)
    ensures x in VisitOrder(leads) <==> x < |leads| && IsSweepCandidate(leads[x])
  {
    var c := CandidatesFrom(leads, 0);
    assert x in VisitOrder(leads) <==> x in multiset(c);
  }

  /** ... each once, by priority descending and then creation time. */
  lemma VisitOrderIsSorted(leads: seq<Lead>)
    ensures Distinct(VisitOrder(leads))
    ensures VisitSorted(leads, VisitOrder(leads))
  {
    var c := CandidatesFrom(leads, 0);
    SortVisitsSorted(leads, c);
    SortVisitsDistinct(leads, c);
  }

  // ---------------------------------------------------------------------
  // The auto-assign sweep.
  // ---------------------------------------------------------------------

  /** The session state of the sweep: the leads as modified so far, the
      interactions added so far, `assigned_count`, and the `leads`
      collection still loaded between visits, which can only be that of the
      agent the previous visit found, since the loop's `agent` variable
      still refers to it. */
  datatype SweepState = SweepState(leads: seq<Lead>, log: seq<Interaction>, count: nat, loaded: Loaded)

  /** One visit: ask for the best agent, with capacity counted on the
      current leads and workload read from the collection still loaded or
      else from the current leads, and, if one is found, assign it and
      record the interaction. Afterwards only the agent found, if any, is
      still loaded. */
  function SweepStep(st: SweepState, k: nat, agents: seq<Agent>, now: int): SweepState
    requires k < |st.leads|
  {
    var best := BestAgent(st.leads[k], agents, st.leads, st.loaded);
    var loaded := KeptLoaded(best, st.leads, st.loaded);
    match best
    case None => st.(loaded := loaded)
    case Some(a) =>
      SweepState(st.leads[k := st.leads[k].(assignedAgentId := Some(a.id), updatedAt := now)],
                 st.log + [AssignmentRecord(st.leads[k].id, a, "Lead auto-assigned to ", now)],
                 st.count + 1, loaded)
  }

  /** The sweep over the visits in `order`; every visit adds at most one
      interaction and one to the count, and ids never change. */
  function Sweep(order: seq<nat>, leads: seq<Lead>, agents: seq<Agent>, now: int): (st: SweepState)
    requires InRange(order, |leads|)
    ensures |st.leads| == |leads|
    ensures forall k :: 0 <= k < |leads| ==> st.leads[k].id == leads[k].id
    ensures st.count == |st.log| <= |order|
  {
    if order == [] then SweepState(leads, [], 0, NothingLoaded)
    else SweepStep(Sweep(order[..|order| - 1], leads, agents, now), order[|order| - 1], agents, now)
  }

  /** `auto_assign_leads`: visits the candidates in order, assigning each to
      the best agent found against the leads as updated so far, and commits
      once at the end; a failed commit rolls the whole sweep back. */
  method AutoAssignLeads(db: Database, now: int, commitOk: bool) returns (r: Result<nat>)
    requires db.Valid()
    modifies db
    ensures db.Valid()
    ensures !commitOk ==> r.Err? && db.leads == old(db.leads) && db.agents == old(db.agents)
                          && db.interactions == old(db.interactions)
    ensures commitOk ==> r.Ok?
    ensures r.Ok? ==>
      var st := Sweep(VisitOrder(old(db.leads)), old(db.leads), old(db.agents), now);
      && db.leads == st.leads
      && db.interactions == old(db.interactions) + st.log
      && db.agents == old(db.agents)
      && r.value == st.count
  {
    var order := VisitOrder(db.leads);
    var leads0 := db.leads;
    var interactions0 := db.interactions;
    var assignedCount := RunSweep(db, order, now);
    SweepKeepsIds(order, leads0, db.agents, now);
    if !commitOk {
      db.leads := leads0;
      db.interactions := interactions0;
      return Err(Internal("commit failed"));
    }
    r := Ok(assignedCount);
  }

  /** The loop of `auto_assign_leads`, applied to the session's leads and
      interactions. */
  method RunSweep(db: Database, order: seq<nat>, now: int) returns (assignedCount: nat)
    requires InRange(order, |db.leads|)
    modifies db
    ensures var st := Sweep(order, old(db.leads), old(db.agents), now);
      && db.leads == st.leads
      && db.interactions == old(db.interactions) + st.log
      && db.agents == old(db.agents)
      && assignedCount == st.count
  {
    ghost var leads0 := db.leads;
    ghost var interactions0 := db.interactions;
    var loaded := NothingLoaded;
    assignedCount := 0;
    for i := 0 to |order|
      invariant db.agents == old(db.agents)
      invariant leads0 == old(db.leads) && interactions0 == old(db.interactions)
      invariant SweepMirrored(db, Sweep(order[..i], leads0, db.agents, now), interactions0, assignedCount, loaded)
    {
      assignedCount, loaded := AdvanceSweep(db, order, i, leads0, interactions0, assignedCount, loaded, now);
    }
    assert order[..|order|] == order;
  }

  /** The session and the loop's variables hold the sweep state `st`. */
  ghost predicate SweepMirrored(db: Database, st: SweepState, interactions0: seq<Interaction>, count: nat, loaded: Loaded)
    reads db
  {
    db.leads == st.leads && db.interactions == interactions0 + st.log && count == st.count && loaded == st.loaded
  }

  /** One iteration of the loop: the session moves from the sweep over the
      first `i` visits to the sweep over the first `i + 1`. */
  method AdvanceSweep(db: Database, order: seq<nat>, i: nat, ghost leads0: seq<Lead>, ghost interactions0: seq<Interaction>,
                      count: nat, loaded: Loaded, now: int)
    returns (count': nat, loaded': Loaded)
    requires InRange(order, |leads0|) && i < |order|
    requires SweepMirrored(db, Sweep(order[..i], leads0, db.agents, now), interactions0, count, loaded)
    modifies db
    ensures db.agents == old(db.agents)
    ensures SweepMirrored(db, Sweep(order[..i + 1], leads0, db.agents, now), interactions0, count', loaded')
  {
    ghost var st := Sweep(order[..i], leads0, db.agents, now);
    SweepNext(order, i, leads0, db.agents, now);
    ghost var visit := SweepStep(SweepState(st.leads, [], 0, st.loaded), order[i], db.agents, now);
    var one;
    one, loaded' := VisitLead(db, order[i], loaded, now);
    assert db.leads == visit.leads && one == (visit.count, visit.log) && loaded' == visit.loaded;
    AppendAssoc(interactions0, st.log, one.1);
    count' := count + one.0;
  }

  /** One visit of the loop, performed on the session: the leads, the log
      and the collection still loaded move exactly as `SweepStep` says. */
  method VisitLead(db: Database, k: nat, loaded: Loaded, now: int) returns (one: (nat, seq<Interaction>), after: Loaded)
    requires k < |db.leads|
    modifies db
    ensures var st := SweepStep(SweepState(old(db.leads), [], 0, loaded), k, old(db.agents), now);
      && db.leads == st.leads
      && one.1 == st.log
      && db.interactions == old(db.interactions) + st.log
      && one.0 == st.count
      && after == st.loaded
      && db.agents == old(db.agents)
  {
    var agent, _ := FindBestAgent(db.leads[k], db.agents, db.leads, loaded);
    after := KeptLoaded(agent, db.leads, loaded);
    if agent.Some? {
      var updated := db.leads[k].(assignedAgentId := Some(agent.value.id), updatedAt := now);
      var record := AssignmentRecord(updated.id, agent.value, "Lead auto-assigned to ", now);
      db.leads := db.leads[k := updated];
      db.interactions := db.interactions + [record];
      one := (1, [record]);
    } else {
      one := (0, []);
    }
  }

  /** Extending the visit order by one visit adds one step to the sweep. */
  lemma SweepPrefix(order: seq<nat>, i: nat, leads: seq<Lead>, agents: seq<Agent>, now: int)
    requires InRange(order, |leads|) && i < |order|
    ensures order[i] < |Sweep(order[..i], leads, agents, now).leads|
    ensures Sweep(order[..i + 1], leads, agents, now)
            == SweepStep(Sweep(order[..i], leads, agents, now), order[i], agents, now)
  {
    assert order[..i + 1][..i] == order[..i];
  }

  /** One more visit of the loop: the step taken from an empty log,
      appended to the sweep so far. */
  lemma SweepNext(order: seq<nat>, i: nat, leads: seq<Lead>, agents: seq<Agent>, now: int)
    requires InRange(order, |leads|) && i < |order|
    ensures var st := Sweep(order[..i], leads, agents, now);
      order[i] < |st.leads|
      && var visit := SweepStep(SweepState(st.leads, [], 0, st.loaded), order[i], agents, now);
      Sweep(order[..i + 1], leads, agents, now) == SweepState(visit.leads, st.log + visit.log, st.count + visit.count, visit.loaded)
  {
    SweepPrefix(order, i, leads, agents, now);
    StepFromEmptyLog(Sweep(order[..i], leads, agents, now), order[i], agents, now);
  }

  /** A step depends on the log and the count only by appending to them. */
  lemma StepFromEmptyLog(st: SweepState, k: nat, agents: seq<Agent>, now: int)
    requires k < |st.leads|
    ensures var fromEmpty := SweepStep(SweepState(st.leads, [], 0, st.loaded), k, agents, now);
      SweepStep(st, k, agents, now)
      == SweepState(fromEmpty.leads, st.log + fromEmpty.log, st.count + fromEmpty.count, fromEmpty.loaded)
  {
  }

  lemma SweepKeepsIds(order: seq<nat>, leads: seq<Lead>, agents: seq<Agent>, now: int)
    requires InRange(order, |leads|) && UniqueLeadIds(leads)
    ensures UniqueLeadIds(Sweep(order, leads, agents, now).leads)
  {
  }

  /** Leads the sweep does not visit are left as they were. */
  lemma {:induction false} SweepUntouched(order: seq<nat>, leads: seq<Lead>, agents: seq<Agent>, now: int, x: nat)
    requires InRange(order, |leads|) && x < |leads| && x !in order
    ensures Sweep(order, leads, agents, now).leads[x] == leads[x]
  {
    if order != [] {
      var prefix := order[..|order| - 1];
      assert forall m :: 0 <= m < |prefix| ==> prefix[m] == order[m];
      assert x !in prefix;
      SweepUntouched(prefix, leads, agents, now, x);
    }
  }

  /** A visited lead either is unchanged (no agent was found) or was given
      an agent from the list. */
  predicate LeftOrAssigned(before: Lead, after: Lead, agents: seq<Agent>, now: int)
  {
    after == before
    || exists a :: a in agents && after == before.(assignedAgentId := Some(a.id), updatedAt := now)
  }

  lemma {:induction false} SweepLeadOutcome(order: seq<nat>, leads: seq<Lead>, agents: seq<Agent>, now: int)
    requires InRange(order, |leads|)
    ensures var st := Sweep(order, leads, agents, now);
      forall x :: 0 <= x < |leads| ==> LeftOrAssigned(leads[x], st.leads[x], agents, now)
  {
    var st := Sweep(order, leads, agents, now);
    if order != [] {
      var n := |order| - 1;
      var prefix := order[..n];
      var k := order[n];
      SweepLeadOutcome(prefix, leads, agents, now);
      var st0 := Sweep(prefix, leads, agents, now);
      match BestAgent(st0.leads[k], agents, st0.leads, st0.loaded)
      case None =>
      case Some(a) =>
        BestAgentIsFirstMaximum(st0.leads[k], agents, st0.leads, st0.loaded, a);
        forall x | 0 <= x < |leads| ensures LeftOrAssigned(leads[x], st.leads[x], agents, now) {
          if x == k {
            if st0.leads[k] != leads[k] {
              var b :| b in agents && st0.leads[k] == leads[k].(assignedAgentId := Some(b.id), updatedAt := now);
            }
            assert st.leads[k] == leads[k].(assignedAgentId := Some(a.id), updatedAt := now);
          }
        }
    }
  }

  /** Between visits only the agent the last visit assigned can still have
      its `leads` collection loaded; after a visit that finds nobody, none
      is loaded. */
  lemma {:induction false} SweepHoldsLastWinner(order: seq<nat>, leads: seq<Lead>, agents: seq<Agent>, now: int)
    requires InRange(order, |leads|)
    ensures var st := Sweep(order, leads, agents, now);
      forall id :: id in st.loaded ==> order != [] && st.leads[order[|order| - 1]].assignedAgentId == Some(id)
  {
    if order != [] {
      var n := |order| - 1;
      var st0 := Sweep(order[..n], leads, agents, now);
      var k := order[n];
      assert Sweep(order, leads, agents, now) == SweepStep(st0, k, agents, now);
    }
  }

  /** So at visit `i` the workload of every agent except the one visit
      `i - 1` assigned is read from a freshly loaded collection: the leads
      assigned to it so far, the sweep's own assignments included. */
  lemma SweepRereadsOthers(order: seq<nat>, leads: seq<Lead>, agents: seq<Agent>, now: int, i: nat, id: int)
    requires InRange(order, |leads|) && i <= |order|
    ensures var st := Sweep(order[..i], leads, agents, now);
      Held(id, st.leads, st.loaded) == AssignedLeadCount(st.leads, id)
      || (i > 0 && st.leads[order[i - 1]].assignedAgentId == Some(id))
  {
    var prefix := order[..i];
    assert forall m :: 0 <= m < |prefix| ==> prefix[m] == order[m];
    SweepHoldsLastWinner(prefix, leads, agents, now);
  }

  /** A visit that assigns an agent keeps exactly that agent's collection,
      at the length the visit read; a visit that assigns nobody keeps
      none. */
  lemma SweepKeepsWinnerLength(order: seq<nat>, leads: seq<Lead>, agents: seq<Agent>, now: int, i: nat)
    requires InRange(order, |leads|) && i < |order|
    ensures var st0 := Sweep(order[..i], leads, agents, now);
            var st1 := Sweep(order[..i + 1], leads, agents, now);
      && (st1.loaded == NothingLoaded <==> st1.count == st0.count)
      && forall id :: id in st1.loaded ==> st1.loaded[id] == Held(id, st0.leads, st0.loaded)
  {
    SweepPrefix(order, i, leads, agents, now);
  }

  /** A new, unassigned lead with nothing to match on. */
  function BareLead(id: int): Lead
  {
    Lead(id, "", "", "", "", "", "manual", "", "", "", "new", "medium", 0, NoList, None, None, NoList, "",
         None, None, 0, 0, None)
  }

  /** An active agent with no specializations and no history. */
  function BareAgent(id: int): Agent
  {
    Agent(id, "", "", "", "", NoList, NoList, NoList, 0, 0, true, 50)
  }

  /** A visit with two agents that can both take the lead and whose
      scores do not raise: the first is assigned unless the second scores
      strictly more, and the one assigned stays loaded with the length the
      visit read. */
  lemma PairVisit(st: SweepState, k: nat, a1: Agent, a2: Agent, s1: real, s2: real, now: int)
    requires k < |st.leads|
    requires CanTakeLead(a1, st.leads) && CanTakeLead(a2, st.leads)
    requires AgentScore(st.leads[k], a1, st.leads, st.loaded) == Ok(s1) && s1 >= 0.0
    requires AgentScore(st.leads[k], a2, st.leads, st.loaded) == Ok(s2)
    ensures var w := if s2 > s1 then a2 else a1;
            var st1 := SweepStep(st, k, [a1, a2], now);
      && st1.leads == st.leads[k := st.leads[k].(assignedAgentId := Some(w.id), updatedAt := now)]
      && st1.loaded == map[w.id := Held(w.id, st.leads, st.loaded)]
  {
    var agents := [a1, a2];
    var l := st.leads[k];
    FilterAll(agents, a => CanTakeLead(a, st.leads));
    assert Available(agents, st.leads) == agents;
    assert agents[1..] == [a2] && agents[1..][1..] == [];
    SelectFromStep(l, agents, st.leads, st.loaded, None, -1.0);
    SelectFromStep(l, agents[1..], st.leads, st.loaded, Some(a1), s1);
    assert BestAgent(l, agents, st.leads, st.loaded) == Some(if s2 > s1 then a2 else a1);
  }

  /** Two interchangeable agents and three new leads. The first agent is
      assigned at the first visit and, still held by the loop, keeps the
      empty collection it loaded then, so it scores 10 at every visit, as
      the second agent does, and the tie goes to the first agent each
      time, even as its leads accumulate. */
  lemma TiesStayWithFirstAgent(now: int)
    ensures var st := Sweep([0, 1, 2], [BareLead(1), BareLead(2), BareLead(3)], [BareAgent(1), BareAgent(2)], now);
      forall x :: 0 <= x < 3 ==> st.leads[x].assignedAgentId == Some(1)
  {
    var leads := [BareLead(1), BareLead(2), BareLead(3)];
    assert TieLeads(0, now) == leads;
    var st0 := SweepState(leads, [], 0, NothingLoaded);
    var st1 := TieVisit(st0, 0, now);
    var st2 := TieVisit(st1, 1, now);
    var st3 := TieVisit(st2, 2, now);
    SweepOfThree(leads, [BareAgent(1), BareAgent(2)], now, st1, st2, st3);
    AllTieLeadsAssigned(now);
  }

  /** The three bare leads of `TiesStayWithFirstAgent` once the first `k`
      have been assigned to agent 1. */
  function TieLeads(k: nat, now: int): seq<Lead>
  {
    [TieLead(1, k, now), TieLead(2, k, now), TieLead(3, k, now)]
  }

  function TieLead(id: int, k: nat, now: int): Lead
  {
    if id <= k then BareLead(id).(assignedAgentId := Some(1), updatedAt := now) else BareLead(id)
  }

  lemma AllTieLeadsAssigned(now: int)
    ensures forall x :: 0 <= x < 3 ==> TieLeads(3, now)[x].assignedAgentId == Some(1)
  {
    var leads := TieLeads(3, now);
    assert leads[0].assignedAgentId == Some(1);
    assert leads[1].assignedAgentId == Some(1);
    assert leads[2].assignedAgentId == Some(1);
  }

  /** The visit to the `k`th bare lead: neither bare agent holds a lead as
      far as the visit can see, both score 10 and the first is assigned. */
  lemma TieVisit(st: SweepState, k: nat, now: int) returns (next: SweepState)
    requires k < 3 && st.leads == TieLeads(k, now)
    requires st.loaded == if k == 0 then NothingLoaded else map[1 := 0]
    ensures next == SweepStep(st, k, [BareAgent(1), BareAgent(2)], now)
    ensures next.leads == TieLeads(k + 1, now) && next.loaded == map[1 := 0]
  {
    var l := st.leads[k];
    NoneAssignedTo(st.leads, 2);
    if k == 0 {
      NoneAssignedTo(st.leads, 1);
    }
    assert AgentScore(l, BareAgent(1), st.leads, st.loaded) == Ok(10.0);
    assert AgentScore(l, BareAgent(2), st.leads, st.loaded) == Ok(10.0);
    PairVisit(st, k, BareAgent(1), BareAgent(2), 10.0, 10.0, now);
    TieLeadsStep(k, now);
    next := SweepStep(st, k, [BareAgent(1), BareAgent(2)], now);
  }

  /** Assigning the `k`th bare lead to agent 1 gives the next tie leads. */
  lemma TieLeadsStep(k: nat, now: int)
    requires k < 3
    ensures var leads := TieLeads(k, now);
      leads[k := leads[k].(assignedAgentId := Some(1), updatedAt := now)] == TieLeads(k + 1, now)
  {
  }

  /** A new lead asking for one area. */
  function AreaLead(id: int, area: string): Lead
  {
    BareLead(id).(preferredAreas := Decoded([area]))
  }

  /** An active agent specialised in one area. */
  function AreaAgent(id: int, area: string): Agent
  {
    BareAgent(id).(specializationAreas := Decoded([area]))
  }

  /** Agents for areas X and Y, and leads asking for X, Y and Z in visit
      order. Agent 1 takes the X lead and agent 2 the Y lead. At the Z lead
      agent 1 is no longer held, so its collection is loaded afresh with its
      one lead and it scores 9, while agent 2, still held by the loop,
      keeps the empty collection it loaded at the Y lead and scores 10. */
  lemma FreedAgentIsReread(now: int)
    ensures var st := Sweep([0, 1, 2], AreaLeads, AreaAgents, now);
      && st.leads[0].assignedAgentId == Some(1)
      && st.leads[1].assignedAgentId == Some(2)
      && st.leads[2].assignedAgentId == Some(2)
  {
    var st0 := SweepState(AreaLeads, [], 0, NothingLoaded);
    var st1 := FirstAreaVisit(st0, now);
    var st2 := SecondAreaVisit(st1, now);
    var st3 := ThirdAreaVisit(st2, now);
    SweepOfThree(AreaLeads, AreaAgents, now, st1, st2, st3);
  }

  const AreaLeads := [AreaLead(1, "X"), AreaLead(2, "Y"), AreaLead(3, "Z")]
  const AreaAgents := [AreaAgent(1, "X"), AreaAgent(2, "Y")]

  /** A sweep over the first three positions is three steps. */
  lemma SweepOfThree(leads: seq<Lead>, agents: seq<Agent>, now: int, st1: SweepState, st2: SweepState, st3: SweepState)
    requires |leads| == 3
    requires st1 == SweepStep(SweepState(leads, [], 0, NothingLoaded), 0, agents, now)
    requires |st1.leads| == 3 && st2 == SweepStep(st1, 1, agents, now)
    requires |st2.leads| == 3 && st3 == SweepStep(st2, 2, agents, now)
    ensures Sweep([0, 1, 2], leads, agents, now) == st3
  {
    var order := [0, 1, 2];
    assert order[..0] == [] && order[..3] == order;
    SweepPrefix(order, 0, leads, agents, now);
    SweepPrefix(order, 1, leads, agents, now);
    SweepPrefix(order, 2, leads, agents, now);
  }

  /** The X lead: agent 1 scores 30 and agent 2 scores 10. */
  lemma FirstAreaVisit(st: SweepState, now: int) returns (next: SweepState)
    requires st.leads == AreaLeads && st.loaded == NothingLoaded
    ensures next == SweepStep(st, 0, AreaAgents, now)
    ensures next.leads == st.leads[0 := st.leads[0].(assignedAgentId := Some(1), updatedAt := now)]
    ensures next.loaded == map[1 := 0]
  {
    NoneAssignedTo(st.leads, 1);
    NoneAssignedTo(st.leads, 2);
    assert SharesEntry(["X"], ["X"]) by { assert ["X"][0] in ["X"]; }
    assert AgentScore(st.leads[0], AreaAgents[0], st.leads, st.loaded) == Ok(30.0);
    assert AgentScore(st.leads[0], AreaAgents[1], st.leads, st.loaded) == Ok(10.0);
    PairVisit(st, 0, AreaAgents[0], AreaAgents[1], 30.0, 10.0, now);
    next := SweepStep(st, 0, AreaAgents, now);
  }

  /** The Y lead: agent 1 is still held with its empty collection and
      scores 10; agent 2 scores 30. */
  lemma SecondAreaVisit(st: SweepState, now: int) returns (next: SweepState)
    requires st.leads == AreaLeads[0 := AreaLeads[0].(assignedAgentId := Some(1), updatedAt := now)]
    requires st.loaded == map[1 := 0]
    ensures next == SweepStep(st, 1, AreaAgents, now)
    ensures next.leads == st.leads[1 := st.leads[1].(assignedAgentId := Some(2), updatedAt := now)]
    ensures next.loaded == map[2 := 0]
  {
    NoneAssignedTo(st.leads, 2);
    assert SharesEntry(["Y"], ["Y"]) by { assert ["Y"][0] in ["Y"]; }
    assert AgentScore(st.leads[1], AreaAgents[0], st.leads, st.loaded) == Ok(10.0);
    assert AgentScore(st.leads[1], AreaAgents[1], st.leads, st.loaded) == Ok(30.0);
    PairVisit(st, 1, AreaAgents[0], AreaAgents[1], 10.0, 30.0, now);
    next := SweepStep(st, 1, AreaAgents, now);
  }

  /** The Z lead: agent 1 is reloaded with its one lead and scores 9;
      agent 2, still held, scores 10. */
  lemma ThirdAreaVisit(st: SweepState, now: int) returns (next: SweepState)
    requires st.leads == AreaLeads[0 := AreaLeads[0].(assignedAgentId := Some(1), updatedAt := now)]
                                  [1 := AreaLeads[1].(assignedAgentId := Some(2), updatedAt := now)]
    requires st.loaded == map[2 := 0]
    ensures next == SweepStep(st, 2, AreaAgents, now)
    ensures next.leads == st.leads[2 := st.leads[2].(assignedAgentId := Some(2), updatedAt := now)]
  {
    NoneAssignedTo(st.leads[1..], 1);
    assert AssignedLeadCount(st.leads, 1) == 1;
    assert AgentScore(st.leads[2], AreaAgents[0], st.leads, st.loaded) == Ok(9.0);
    assert AgentScore(st.leads[2], AreaAgents[1], st.leads, st.loaded) == Ok(10.0);
    PairVisit(st, 2, AreaAgents[0], AreaAgents[1], 9.0, 10.0, now);
    next := SweepStep(st, 2, AreaAgents, now);
  }

  /** An automated assignment interaction naming an agent from the list. */
  predicate IsAutoAssignment(e: Interaction, agents: seq<Agent>, now: int)
  {
    exists a :: a in agents && e == AssignmentRecord(e.leadId, a, "Lead auto-assigned to ", now)
  }

  /** Every interaction the sweep records is an automated assignment to an
      agent from the list. */
  lemma {:induction false} SweepLogOutcome(order: seq<nat>, leads: seq<Lead>, agents: seq<Agent>, now: int)
    requires InRange(order, |leads|)
    ensures forall j :: 0 <= j < |Sweep(order, leads, agents, now).log| ==>
      IsAutoAssignment(Sweep(order, leads, agents, now).log[j], agents, now)
  {
    if order != [] {
      var n := |order| - 1;
      var prefix := order[..n];
      var k := order[n];
      SweepLogOutcome(prefix, leads, agents, now);
      var st0 := Sweep(prefix, leads, agents, now);
      match BestAgent(st0.leads[k], agents, st0.leads, st0.loaded)
      case None =>
        var st := Sweep(order, leads, agents, now);
        assert st.log == st0.log;
        forall j | 0 <= j < |st.log| ensures IsAutoAssignment(st.log[j], agents, now) {
          assert st.log[j] == st0.log[j];
        }
      case Some(a) =>
        BestAgentIsFirstMaximum(st0.leads[k], agents, st0.leads, st0.loaded, a);
        var e := AssignmentRecord(st0.leads[k].id, a, "Lead auto-assigned to ", now);
        assert IsAutoAssignment(e, agents, now);
        assert Sweep(order, leads, agents, now).log == st0.log + [e];
    }
  }

  /** The lead and agent each interaction names. */
  function LogKeys(log: seq<Interaction>): (r: seq<(int, Option<int>)>)
    ensures |r| == |log| && forall j :: 0 <= j < |log| ==> r[j] == (log[j].leadId, log[j].agentId)
  {
    seq(|log|, j requires 0 <= j < |log| => (log[j].leadId, log[j].agentId))
  }

  lemma LogKeysSnoc(log: seq<Interaction>, e: Interaction)
    ensures LogKeys(log + [e]) == LogKeys(log) + [(e.leadId, e.agentId)]
  {
    var l := log + [e];
    assert forall j :: 0 <= j < |log| ==> l[j] == log[j];
  }

  /** For each visited position, in visit order, whose lead has an agent:
      the lead's id and its agent. */
  function AssignedRecords(order: seq<nat>, leads: seq<Lead>): (r: seq<(int, Option<int>)>)
    requires InRange(order, |leads|)
    ensures |r| <= |order|
  {
    if order == [] then []
    else
      var l := leads[order[|order| - 1]];
      AssignedRecords(order[..|order| - 1], leads) + (if l.assignedAgentId.Some? then [(l.id, l.assignedAgentId)] else [])
  }

  /** Each record names the lead at some visit, which has an agent. */
  lemma {:induction false} AssignedRecordsFrom(order: seq<nat>, leads: seq<Lead>, j: nat) returns (m: nat)
    requires InRange(order, |leads|) && j < |AssignedRecords(order, leads)|
    ensures m < |order| && AssignedAt(order, leads, m, AssignedRecords(order, leads)[j])
  {
    var n := |order| - 1;
    var prefix := order[..n];
    var rest := AssignedRecords(prefix, leads);
    if j < |rest| {
      m := AssignedRecordsFrom(prefix, leads, j);
      assert prefix[m] == order[m];
    } else {
      m := n;
    }
  }

  /** The record `e` is the lead at the `m`-th visit, which has an agent. */
  predicate AssignedAt(order: seq<nat>, leads: seq<Lead>, m: nat, e: (int, Option<int>))
    requires InRange(order, |leads|) && m < |order|
  {
    leads[order[m]].assignedAgentId.Some? && e == (leads[order[m]].id, leads[order[m]].assignedAgentId)
  }

  /** Distinct visits of leads with distinct ids name each lead once. */
  lemma {:induction false} AssignedRecordsOnce(order: seq<nat>, leads: seq<Lead>)
    requires InRange(order, |leads|) && Distinct(order) && UniqueLeadIds(leads)
    ensures forall i, j :: 0 <= i < j < |AssignedRecords(order, leads)| ==>
      AssignedRecords(order, leads)[i].0 != AssignedRecords(order, leads)[j].0
  {
    if order != [] {
      var n := |order| - 1;
      var prefix := order[..n];
      assert forall m :: 0 <= m < |prefix| ==> prefix[m] == order[m];
      assert Distinct(prefix);
      AssignedRecordsOnce(prefix, leads);
      var rest := AssignedRecords(prefix, leads);
      var r := AssignedRecords(order, leads);
      forall i, j | 0 <= i < j < |r| ensures r[i].0 != r[j].0 {
        if j >= |rest| {
          var m := AssignedRecordsFrom(prefix, leads, i);
          assert r[i] == rest[i] && r[j] == (leads[order[n]].id, leads[order[n]].assignedAgentId);
          assert order[m] != order[n];
        } else {
          assert r[i] == rest[i] && r[j] == rest[j];
        }
      }
    }
  }

  /** The recorded positions ignore a lead outside the visits. */
  lemma {:induction false} AssignedRecordsFrame(order: seq<nat>, leads: seq<Lead>, k: nat, v: Lead)
    requires InRange(order, |leads|) && k < |leads| && k !in order
    ensures AssignedRecords(order, leads[k := v]) == AssignedRecords(order, leads)
  {
    if order != [] {
      var prefix := order[..|order| - 1];
      assert forall m :: 0 <= m < |prefix| ==> prefix[m] == order[m];
      assert k !in prefix;
      AssignedRecordsFrame(prefix, leads, k, v);
    }
  }

  /** The sweep records one interaction per visited lead that ended up with
      an agent, in visit order: the interaction names that lead and the
      agent now stored on it. With unique lead ids, no lead is named twice. */
  lemma {:induction false} SweepLogMatchesLeads(order: seq<nat>, leads: seq<Lead>, agents: seq<Agent>, now: int)
    requires InRange(order, |leads|) && Distinct(order) && CandidatesIn(order, leads)
    ensures LogKeys(Sweep(order, leads, agents, now).log) == AssignedRecords(order, Sweep(order, leads, agents, now).leads)
  {
    if order != [] {
      var n := |order| - 1;
      var prefix := order[..n];
      var k := order[n];
      assert Distinct(prefix);
      assert forall m :: 0 <= m < |prefix| ==> prefix[m] == order[m];
      assert CandidatesIn(prefix, leads);
      SweepLogMatchesLeads(prefix, leads, agents, now);
      var st0 := Sweep(prefix, leads, agents, now);
      assert k !in prefix;
      SweepUntouched(prefix, leads, agents, now, k);
      StepKeepsLogMatch(st0, order, agents, now);
    }
  }

  /** One more visit, of a lead without an agent, keeps the log in step
      with the assigned visits. */
  lemma StepKeepsLogMatch(st0: SweepState, order: seq<nat>, agents: seq<Agent>, now: int)
    requires order != [] && InRange(order, |st0.leads|)
    requires order[|order| - 1] !in order[..|order| - 1]
    requires st0.leads[order[|order| - 1]].assignedAgentId.None?
    requires LogKeys(st0.log) == AssignedRecords(order[..|order| - 1], st0.leads)
    ensures var st := SweepStep(st0, order[|order| - 1], agents, now);
      LogKeys(st.log) == AssignedRecords(order, st.leads)
  {
    var k := order[|order| - 1];
    var best := BestAgent(st0.leads[k], agents, st0.leads, st0.loaded);
    if best.Some? {
      var a := best.value;
      var updated := st0.leads[k].(assignedAgentId := Some(a.id), updatedAt := now);
      var e := AssignmentRecord(st0.leads[k].id, a, "Lead auto-assigned to ", now);
      AppendAssigned(order, st0.leads, st0.log, updated, e);
    }
  }

  /** Assigning the last visited lead and logging it extends both sides
      by the same record. */
  lemma AppendAssigned(order: seq<nat>, leads: seq<Lead>, log: seq<Interaction>, updated: Lead, e: Interaction)
    requires order != [] && InRange(order, |leads|)
    requires order[|order| - 1] !in order[..|order| - 1]
    requires LogKeys(log) == AssignedRecords(order[..|order| - 1], leads)
    requires updated.assignedAgentId.Some? && e.leadId == updated.id && e.agentId == updated.assignedAgentId
    ensures LogKeys(log + [e]) == AssignedRecords(order, leads[order[|order| - 1] := updated])
  {
    var prefix, k := order[..|order| - 1], order[|order| - 1];
    var after := leads[k := updated];
    AssignedRecordsFrame(prefix, leads, k, updated);
    assert after[k] == updated;
    assert AssignedRecords(order, after) == AssignedRecords(prefix, after) + [(updated.id, updated.assignedAgentId)];
    LogKeysSnoc(log, e);
  }

  /** No lead is named by two of the sweep's interactions. */
  lemma SweepLogOnce(order: seq<nat>, leads: seq<Lead>, agents: seq<Agent>, now: int)
    requires InRange(order, |leads|) && Distinct(order) && CandidatesIn(order, leads) && UniqueLeadIds(leads)
    ensures var log := Sweep(order, leads, agents, now).log;
      forall i, j :: 0 <= i < j < |log| ==> log[i].leadId != log[j].leadId
  {
    var st := Sweep(order, leads, agents, now);
    SweepKeepsIds(order, leads, agents, now);
    SweepLogMatchesLeads(order, leads, agents, now);
    AssignedRecordsOnce(order, st.leads);
    assert forall j :: 0 <= j < |st.log| ==> st.log[j].leadId == LogKeys(st.log)[j].0;
  }

  predicate CandidatesIn(order: seq<nat>, leads: seq<Lead>)
    requires InRange(order, |leads|)
  {
    forall i :: 0 <= i < |order| ==> IsSweepCandidate(leads[order[i]])
  }

  /** After the sweep no agent holds more active leads than the larger of
      what it held before and its `max_leads`: an agent is only chosen while
      it can take a lead, and each assignment adds one active lead. */
  predicate WithinCapacity(before: seq<Lead>, after: seq<Lead>, agents: seq<Agent>)
  {
    forall c :: c in agents ==>
      ActiveLeadCount(after, c.id) <= ActiveLeadCount(before, c.id) || ActiveLeadCount(after, c.id) <= c.maxLeads
  }

  lemma {:induction false} SweepRespectsCapacity(order: seq<nat>, leads: seq<Lead>, agents: seq<Agent>, now: int)
    requires InRange(order, |leads|) && Distinct(order) && CandidatesIn(order, leads) && UniqueAgents(agents)
    ensures WithinCapacity(leads, Sweep(order, leads, agents, now).leads, agents)
  {
    if order != [] {
      var n := |order| - 1;
      var prefix := order[..n];
      var k := order[n];
      assert Distinct(prefix);
      assert CandidatesIn(prefix, leads) by {
        forall i | 0 <= i < |prefix| ensures IsSweepCandidate(leads[prefix[i]]) {
          assert prefix[i] == order[i];
        }
      }
      SweepRespectsCapacity(prefix, leads, agents, now);
      var st0 := Sweep(prefix, leads, agents, now);
      assert forall m :: 0 <= m < |prefix| ==> prefix[m] == order[m];
      assert k !in prefix;
      SweepUntouched(prefix, leads, agents, now, k);
      assert IsSweepCandidate(st0.leads[k]);
      match BestAgent(st0.leads[k], agents, st0.leads, st0.loaded)
      case None =>
      case Some(a) =>
        BestAgentIsFirstMaximum(st0.leads[k], agents, st0.leads, st0.loaded, a);
        var updated := st0.leads[k].(assignedAgentId := Some(a.id), updatedAt := now);
        var after := Sweep(order, leads, agents, now).leads;
        assert after == st0.leads[k := updated];
        forall c | c in agents
          ensures ActiveLeadCount(after, c.id) <= ActiveLeadCount(leads, c.id) || ActiveLeadCount(after, c.id) <= c.maxLeads
        {
          ActiveLeadCountUpdate(st0.leads, k, updated, c.id);
          if c.id == a.id {
            var i :| 0 <= i < |agents| && agents[i] == c;
            var j :| 0 <= j < |agents| && agents[j] == a;
            assert agents[i].id == agents[j].id;
            assert i == j;
          }
        }
    }
  }

  /** The number of visited leads that now have an agent. */
  function AssignedAmong(order: seq<nat>, leads: seq<Lead>): nat
    requires InRange(order, |leads|)
  {
    if order == [] then 0
    else AssignedAmong(order[..|order| - 1], leads) + (if leads[order[|order| - 1]].assignedAgentId.Some? then 1 else 0)
  }

  lemma {:induction false} AssignedAmongFrame(order: seq<nat>, leads: seq<Lead>, k: nat, v: Lead)
    requires InRange(order, |leads|) && k < |leads| && k !in order
    ensures AssignedAmong(order, leads[k := v]) == AssignedAmong(order, leads)
  {
    if order != [] {
      var prefix := order[..|order| - 1];
      assert forall m :: 0 <= m < |prefix| ==> prefix[m] == order[m];
      assert k !in prefix;
      AssignedAmongFrame(prefix, leads, k, v);
    }
  }

  /** `assigned_count` is the number of visited leads that ended up with an
      agent, which for candidates is the number for which an agent was found. */
  lemma {:induction false} SweepCountsAssignments(order: seq<nat>, leads: seq<Lead>, agents: seq<Agent>, now: int)
    requires InRange(order, |leads|) && Distinct(order) && CandidatesIn(order, leads)
    ensures var st := Sweep(order, leads, agents, now); st.count == AssignedAmong(order, st.leads)
  {
    if order != [] {
      var n := |order| - 1;
      var prefix := order[..n];
      var k := order[n];
      assert Distinct(prefix);
      assert forall m :: 0 <= m < |prefix| ==> prefix[m] == order[m];
      assert CandidatesIn(prefix, leads);
      SweepCountsAssignments(prefix, leads, agents, now);
      var st0 := Sweep(prefix, leads, agents, now);
      assert k !in prefix;
      SweepUntouched(prefix, leads, agents, now, k);
      assert st0.leads[k].assignedAgentId.None?;
      match BestAgent(st0.leads[k], agents, st0.leads, st0.loaded)
      case None =>
        assert AssignedAmong(order, st0.leads) == AssignedAmong(prefix, st0.leads);
      case Some(a) =>
        var updated := st0.leads[k].(assignedAgentId := Some(a.id), updatedAt := now);
        AssignedAmongFrame(prefix, st0.leads, k, updated);
        assert AssignedAmong(order, st0.leads[k := updated]) == AssignedAmong(prefix, st0.leads[k := updated]) + 1;
    }
  }

  /** The sweep as run on the store: every agent stays within capacity, the
      count matches the interactions added, and it is at most the number of
      candidates. */
  lemma AutoAssignKeepsCapacity(leads: seq<Lead>, agents: seq<Agent>, now: int)
    requires UniqueAgents(agents)
    ensures WithinCapacity(leads, Sweep(VisitOrder(leads), leads, agents, now).leads, agents)
    ensures Sweep(VisitOrder(leads), leads, agents, now).count
            == AssignedAmong(VisitOrder(leads), Sweep(VisitOrder(leads), leads, agents, now).leads)
  {
    var order := VisitOrder(leads);
    VisitOrderIsSorted(leads);
    assert CandidatesIn(order, leads) by {
      forall i | 0 <= i < |order| ensures IsSweepCandidate(leads[order[i]]) {
        VisitOrderMembers(leads, order[i]);
      }
    }
    SweepRespectsCapacity(order, leads, agents, now);
    SweepCountsAssignments(order, leads, agents, now);
  }

  /** The sweep as run on the store logs, in visit order, one automated
      interaction per lead it gave an agent, naming that lead and its new
      agent, and names no lead twice. */
  lemma AutoAssignLogMatches(leads: seq<Lead>, agents: seq<Agent>, now: int)
    requires UniqueLeadIds(leads)
    ensures var st := Sweep(VisitOrder(leads), leads, agents, now);
      && LogKeys(st.log) == AssignedRecords(VisitOrder(leads), st.leads)
      && forall i, j :: 0 <= i < j < |st.log| ==> st.log[i].leadId != st.log[j].leadId
  {
    var order := VisitOrder(leads);
    VisitOrderIsSorted(leads);
    assert CandidatesIn(order, leads) by {
      forall i | 0 <= i < |order| ensures IsSweepCandidate(leads[order[i]]) {
        VisitOrderMembers(leads, order[i]);
      }
    }
    SweepLogMatchesLeads(order, leads, agents, now);
    SweepLogOnce(order, leads, agents, now);
  }
}
