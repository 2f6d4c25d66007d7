/** The lead routes: choosing the best agent for a lead, the Instagram and
    WhatsApp inquiry handlers that create or update leads, and the page-size
    cap of the lead listing. */
module LeadRoutes {
  import opened Common
  import opened LeadModel

  // ---------------------------------------------------------------------
  // Agent scoring.
  // ---------------------------------------------------------------------

  /** `any(area in agent_areas for area in lead_areas)`. */
  predicate SharesEntry(leadAreas: seq<string>, agentAreas: seq<string>)
  {
    exists i :: 0 <= i < |leadAreas| && leadAreas[i] in agentAreas
  }

  /** Specialization match on areas: 20 points when both columns are truthy
      and the decoded lists share an entry; decoding either column may raise. */
  function AreaPoints(l: Lead, a: Agent): (r: Result<int>)
    ensures r.Err? <==> !l.preferredAreas.NoList? && !a.specializationAreas.NoList?
                        && (l.preferredAreas.Malformed? || a.specializationAreas.Malformed?)
    ensures r.Ok? ==> r.value == 0 || r.value == 20
    ensures (r.Ok? && r.value == 20) <==> l.preferredAreas.Decoded? && a.specializationAreas.Decoded?
                                          && SharesEntry(l.preferredAreas.items, a.specializationAreas.items)
  {
    if !l.preferredAreas.NoList? && !a.specializationAreas.NoList? then
      match a.specializationAreas
      case Malformed => Err(Internal("JSONDecodeError"))
      case Decoded(agentAreas) =>
        match l.preferredAreas
        case Malformed => Err(Internal("JSONDecodeError"))
        case Decoded(leadAreas) => Ok(if SharesEntry(leadAreas, agentAreas) then 20 else 0)
    else Ok(0)
  }

  /** Specialization match on property type: 15 points when the lead has a
      type and it is in the agent's decoded type list. */
  function TypePoints(l: Lead, a: Agent): (r: Result<int>)
    ensures r.Err? <==> |l.propertyType| > 0 && a.specializationTypes.Malformed?
    ensures r.Ok? ==> r.value == 0 || r.value == 15
    ensures (r.Ok? && r.value == 15) <==> |l.propertyType| > 0 && a.specializationTypes.Decoded?
                                          && l.propertyType in a.specializationTypes.items
  {
    if |l.propertyType| > 0 && !a.specializationTypes.NoList? then
      match a.specializationTypes
      case Malformed => Err(Internal("JSONDecodeError"))
      case Decoded(types) => Ok(if l.propertyType in types then 15 else 0)
    else Ok(0)
  }

  /** The `agent.leads` collections loaded on agent objects that are still
      alive, by agent id: each holds the number of leads the collection had
      when it was loaded. Setting `lead.assigned_agent_id` does not refresh
      a loaded collection, so its length stays as loaded for as long as the
      agent object lives. The session's identity map holds an unmodified
      object only weakly, so an agent that no variable refers to any more
      is dropped with its collection, and the next query builds it anew. */
  type Loaded = map<int, nat>

  /** A request starts with a fresh session, in which nothing is loaded. */
  const NothingLoaded: Loaded := map[]

  /** `len(agent.leads)`: the loaded collection's length, or, when it is not
      loaded yet (it loads now, after the session flushes), every lead
      currently assigned to the agent, whatever its status. */
  function Held(id: int, leads: seq<Lead>, loaded: Loaded): nat
  {
    if id in loaded then loaded[id] else AssignedLeadCount(leads, id)
  }

  /** Workload: `max(0, 10 - len(agent.leads))`. */
  function WorkloadPoints(a: Agent, leads: seq<Lead>, loaded: Loaded): (p: int)
    ensures 0 <= p <= 10
    ensures p == 10 - Held(a.id, leads, loaded) || (p == 0 && Held(a.id, leads, loaded) >= 10)
    ensures a.id !in loaded ==> p == 10 - AssignedLeadCount(leads, a.id) || (p == 0 && AssignedLeadCount(leads, a.id) >= 10)
  {
    var current := Held(a.id, leads, loaded);
    if 10 - current > 0 then 10 - current else 0
  }

  /** Performance: the conversion rate times 10, or 0 without any leads. */
  function PerformancePoints(a: Agent): (p: real)
    ensures a.totalLeads <= 0 ==> p == 0.0
    ensures 0 <= a.convertedLeads <= a.totalLeads ==> 0.0 <= p <= 10.0
    ensures a.totalLeads > 0 && a.convertedLeads >= 0 ==> p >= 0.0
  {
    if a.totalLeads > 0 then (a.convertedLeads as real / a.totalLeads as real) * 10.0 else 0.0
  }

  /** The score `find_best_agent` gives an agent for a lead. */
  function AgentScore(l: Lead, a: Agent, leads: seq<Lead>, loaded: Loaded): (r: Result<real>)
    ensures r.Ok? <==> AreaPoints(l, a).Ok? && TypePoints(l, a).Ok?
    ensures r.Ok? && (a.totalLeads <= 0 || a.convertedLeads >= 0) ==> r.value >= 0.0
    ensures r.Ok? && 0 <= a.convertedLeads <= a.totalLeads ==> r.value <= 55.0
  {
    match AreaPoints(l, a)
    case Err(e) => Err(e)
    case Ok(area) =>
      match TypePoints(l, a)
      case Err(e) => Err(e)
      case Ok(kind) => Ok((area + kind + WorkloadPoints(a, leads, loaded)) as real + PerformancePoints(a))
  }

  // ---------------------------------------------------------------------
  // Best-agent selection.
  // ---------------------------------------------------------------------

  /** The agents that pass `can_take_lead`, in query order. */
  function Available(agents: seq<Agent>, leads: seq<Lead>): (r: seq<Agent>)
    ensures forall a :: a in r <==> a in agents && CanTakeLead(a, leads)
    ensures IsSubsequence(r, agents)
  {
    FilterIsSubsequence(agents, a => CanTakeLead(a, leads));
    Filter(agents, a => CanTakeLead(a, leads))
  }

  /** The selection loop from a given position: an agent replaces the
      current best only when its score is strictly greater; a scoring error
      aborts the whole selection. */
  function SelectFrom(l: Lead, cands: seq<Agent>, leads: seq<Lead>, loaded: Loaded, best: Option<Agent>, bestScore: real)
    : (r: Result<(Option<Agent>, real)>)
    ensures r.Ok? ==> r.value.1 >= bestScore
    ensures r.Ok? && r.value.0 != best ==> r.value.0.Some? && r.value.0.value in cands && r.value.1 > bestScore
    decreases |cands|
  {
    if cands == [] then Ok((best, bestScore))
    else match AgentScore(l, cands[0], leads, loaded)
      case Err(e) => Err(e)
      case Ok(s) =>
        if s > bestScore then SelectFrom(l, cands[1..], leads, loaded, Some(cands[0]), s)
        else SelectFrom(l, cands[1..], leads, loaded, best, bestScore)
  }

  /** What `find_best_agent` returns: nothing when no agent is available or
      when any scoring step raises, otherwise the selection's winner
      starting from a best score of -1. */
  function BestAgent(l: Lead, agents: seq<Agent>, leads: seq<Lead>, loaded: Loaded): (r: Option<Agent>)
    ensures r.Some? ==> r.value in agents && CanTakeLead(r.value, leads)
  {
    var available := Available(agents, leads);
    if available == [] then None
    else match SelectFrom(l, available, leads, loaded, None, -1.0)
      case Err(_) => None
      case Ok(chosen) => chosen.0
  }

  /** Every candidate up to position `k` scores without raising. */
  predicate ScoredThrough(l: Lead, cands: seq<Agent>, leads: seq<Lead>, loaded: Loaded, k: nat)
  {
    forall j :: 0 <= j <= k && j < |cands| ==> AgentScore(l, cands[j], leads, loaded).Ok?
  }

  /** The collections loaded once a selection over `cands` is done, starting
      from `acc`. Scoring reads `len(agent.leads)` after both specialization
      checks, so each candidate before the first one whose scoring raises
      has its collection loaded; a collection already loaded keeps what it
      holds. */
  function LoadScored(l: Lead, cands: seq<Agent>, leads: seq<Lead>, loaded: Loaded, acc: Loaded): (r: Loaded)
    ensures acc.Keys <= r.Keys
    ensures forall id :: id in acc ==> r[id] == acc[id]
    ensures forall id :: id in r && id !in acc ==> r[id] == Held(id, leads, loaded)
    decreases |cands|
  {
    if cands == [] then acc
    else match AgentScore(l, cands[0], leads, loaded)
      case Err(_) => acc
      case Ok(_) => LoadScored(l, cands[1..], leads, loaded, LoadOne(cands[0].id, leads, loaded, acc))
  }

  /** A selection loads exactly the collections of the candidates scored
      before the first one whose scoring raises. */
  lemma {:induction false} LoadScoredMeaning(l: Lead, cands: seq<Agent>, leads: seq<Lead>, loaded: Loaded, acc: Loaded, id: int)
    requires id !in acc
    ensures id in LoadScored(l, cands, leads, loaded, acc)
            <==> exists k :: 0 <= k < |cands| && cands[k].id == id && ScoredThrough(l, cands, leads, loaded, k)
    decreases |cands|
  {
    if cands != [] {
      if AgentScore(l, cands[0], leads, loaded).Err? {
        assert forall k :: 0 <= k < |cands| ==> !ScoredThrough(l, cands, leads, loaded, k);
      } else {
        var acc' := LoadOne(cands[0].id, leads, loaded, acc);
        ScoredThroughTail(l, cands, leads, loaded);
        if id == cands[0].id {
          assert ScoredThrough(l, cands, leads, loaded, 0);
        } else {
          LoadScoredMeaning(l, cands[1..], leads, loaded, acc', id);
          if id in LoadScored(l, cands, leads, loaded, acc) {
            var k :| 0 <= k < |cands| - 1 && cands[1..][k].id == id && ScoredThrough(l, cands[1..], leads, loaded, k);
            assert cands[k + 1].id == id;
          } else {
            forall k | 0 <= k < |cands| && cands[k].id == id ensures !ScoredThrough(l, cands, leads, loaded, k) {
              assert k > 0 && cands[1..][k - 1] == cands[k];
            }
          }
        }
      }
    }
  }

  /** Reading `len(agent.leads)` loads the collection unless it already is. */
  function LoadOne(id: int, leads: seq<Lead>, loaded: Loaded, acc: Loaded): Loaded
  {
    if id in acc then acc else acc[id := Held(id, leads, loaded)]
  }

  /** One candidate of the loading fold: an error stops it, a score loads
      the candidate and goes on with the rest. */
  lemma LoadScoredStep(l: Lead, cands: seq<Agent>, leads: seq<Lead>, loaded: Loaded, acc: Loaded)
    requires cands != []
    ensures AgentScore(l, cands[0], leads, loaded).Err? ==> LoadScored(l, cands, leads, loaded, acc) == acc
    ensures AgentScore(l, cands[0], leads, loaded).Ok? ==>
      LoadScored(l, cands, leads, loaded, acc) == LoadScored(l, cands[1..], leads, loaded, LoadOne(cands[0].id, leads, loaded, acc))
  {
  }

  /** One candidate of the selection: an error aborts it, a strictly
      greater score makes the candidate the best so far. */
  lemma SelectFromStep(l: Lead, cands: seq<Agent>, leads: seq<Lead>, loaded: Loaded, best: Option<Agent>, bestScore: real)
    requires cands != []
    ensures AgentScore(l, cands[0], leads, loaded).Err? ==> SelectFrom(l, cands, leads, loaded, best, bestScore).Err?
    ensures AgentScore(l, cands[0], leads, loaded).Ok? ==>
      var s := AgentScore(l, cands[0], leads, loaded).value;
      SelectFrom(l, cands, leads, loaded, best, bestScore)
      == if s > bestScore then SelectFrom(l, cands[1..], leads, loaded, Some(cands[0]), s)
         else SelectFrom(l, cands[1..], leads, loaded, best, bestScore)
  {
  }

  /** When the first candidate scores, scoring through position `k + 1`
      is scoring through position `k` of the rest. */
  lemma ScoredThroughTail(l: Lead, cands: seq<Agent>, leads: seq<Lead>, loaded: Loaded)
    requires cands != [] && AgentScore(l, cands[0], leads, loaded).Ok?
    ensures ScoredThrough(l, cands, leads, loaded, 0)
    ensures forall k :: 0 <= k < |cands| - 1 ==>
      (ScoredThrough(l, cands[1..], leads, loaded, k) <==> ScoredThrough(l, cands, leads, loaded, k + 1))
  {
    forall k | 0 <= k < |cands| - 1
      ensures ScoredThrough(l, cands[1..], leads, loaded, k) <==> ScoredThrough(l, cands, leads, loaded, k + 1)
    {
      if ScoredThrough(l, cands[1..], leads, loaded, k) {
        forall j | 0 <= j <= k + 1 && j < |cands| ensures AgentScore(l, cands[j], leads, loaded).Ok? {
          if j > 0 { assert cands[j] == cands[1..][j - 1]; }
        }
      }
      if ScoredThrough(l, cands, leads, loaded, k + 1) {
        forall j | 0 <= j <= k && j < |cands| - 1 ensures AgentScore(l, cands[1..][j], leads, loaded).Ok? {
          assert cands[1..][j] == cands[j + 1];
        }
      }
    }
  }

  /** `find_best_agent`: filters the available agents, then keeps the agent
      with the strictly greatest score seen so far. Scoring an agent loads
      its `leads` collection into the session, which `after` returns. */
  method FindBestAgent(l: Lead, agents: seq<Agent>, leads: seq<Lead>, loaded: Loaded)
    returns (best: Option<Agent>, after: Loaded)
    ensures best == BestAgent(l, agents, leads, loaded)
    ensures after == LoadScored(l, Available(agents, leads), leads, loaded, loaded)
    ensures var kept := KeptLoaded(best, leads, loaded);
      kept.Keys <= after.Keys && forall id :: id in kept ==> kept[id] == after[id]
  {
    var available := Available(agents, leads);
    after := loaded;
    if available == [] {
      return None, after;
    }
    best := None;
    var bestScore: real := -1.0;
    var i := 0;
    while i < |available|
      invariant 0 <= i <= |available|
      invariant SelectFrom(l, available[i..], leads, loaded, best, bestScore) == SelectFrom(l, available, leads, loaded, None, -1.0)
      invariant LoadScored(l, available[i..], leads, loaded, after) == LoadScored(l, available, leads, loaded, loaded)
    {
      assert available[i..][1..] == available[i + 1..];
      var score := AgentScore(l, available[i], leads, loaded);
      LoadScoredStep(l, available[i..], leads, loaded, after);
      SelectFromStep(l, available[i..], leads, loaded, best, bestScore);
      if score.Err? {
        return None, after;
      }
      after := LoadOne(available[i].id, leads, loaded, after);
      if score.value > bestScore {
        best := Some(available[i]);
        bestScore := score.value;
      }
      i := i + 1;
    }
    WinnerStaysLoaded(l, agents, leads, loaded);
  }

  /** What stays loaded once `find_best_agent` returns. The agents it
      queries live only in its locals and are dropped on return, with their
      collections; only the agent it returns lives on, in the caller's
      variable, and keeps its collection as the selection read it. */
  function KeptLoaded(best: Option<Agent>, leads: seq<Lead>, loaded: Loaded): (r: Loaded)
    ensures best.None? ==> r == NothingLoaded
    ensures best.Some? ==> r.Keys == {best.value.id}
  {
    match best
    case None => NothingLoaded
    case Some(a) => map[a.id := Held(a.id, leads, loaded)]
  }

  /** What survives a selection is part of what it loaded: the returned
      agent was scored, so its collection was loaded during the call, and
      it keeps that length. */
  lemma WinnerStaysLoaded(l: Lead, agents: seq<Agent>, leads: seq<Lead>, loaded: Loaded)
    ensures var kept := KeptLoaded(BestAgent(l, agents, leads, loaded), leads, loaded);
            var during := LoadScored(l, Available(agents, leads), leads, loaded, loaded);
      kept.Keys <= during.Keys && forall id :: id in kept ==> kept[id] == during[id]
  {
    match BestAgent(l, agents, leads, loaded)
    case None =>
    case Some(a) =>
      BestAgentIsFirstMaximum(l, agents, leads, loaded, a);
      var available := Available(agents, leads);
      var k :| 0 <= k < |available| && available[k] == a;
      if a.id !in loaded {
        assert ScoredThrough(l, available, leads, loaded, k);
        LoadScoredMeaning(l, available, leads, loaded, loaded, a.id);
      }
  }

  predicate AllScored(l: Lead, cands: seq<Agent>, leads: seq<Lead>, loaded: Loaded)
  {
    forall k :: 0 <= k < |cands| ==> AgentScore(l, cands[k], leads, loaded).Ok?
  }

  /** When every candidate scores, the selection succeeds and ends on a
      score no candidate exceeds; either nobody beat the starting score, or
      the winner is a candidate that beat it and every candidate before it
      scored strictly less (so ties go to the earliest). */
  lemma {:induction false} SelectFromMaximum(l: Lead, cands: seq<Agent>, leads: seq<Lead>, loaded: Loaded, best: Option<Agent>, bestScore: real)
    requires AllScored(l, cands, leads, loaded)
    ensures SelectFrom(l, cands, leads, loaded, best, bestScore).Ok?
    ensures var (b, s) := SelectFrom(l, cands, leads, loaded, best, bestScore).value;
      bestScore <= s
      && (forall k :: 0 <= k < |cands| ==> AgentScore(l, cands[k], leads, loaded).value <= s)
      && ((b == best && s == bestScore)
          || exists k :: 0 <= k < |cands| && b == Some(cands[k]) && s == AgentScore(l, cands[k], leads, loaded).value
                         && bestScore < s
                         && forall j :: 0 <= j < k ==> AgentScore(l, cands[j], leads, loaded).value < s)
    decreases |cands|
  {
    if cands != [] {
      var s0 := AgentScore(l, cands[0], leads, loaded).value;
      var tail := cands[1..];
      assert AllScored(l, tail, leads, loaded) by {
        forall k | 0 <= k < |tail| ensures AgentScore(l, tail[k], leads, loaded).Ok? {
          assert tail[k] == cands[k + 1];
        }
      }
      var nb := if s0 > bestScore then Some(cands[0]) else best;
      var ns := if s0 > bestScore then s0 else bestScore;
      SelectFromMaximum(l, tail, leads, loaded, nb, ns);
      assert SelectFrom(l, cands, leads, loaded, best, bestScore) == SelectFrom(l, tail, leads, loaded, nb, ns);
      var (b, s) := SelectFrom(l, tail, leads, loaded, nb, ns).value;
      forall k | 0 <= k < |cands| ensures AgentScore(l, cands[k], leads, loaded).value <= s {
        if k > 0 {
          assert cands[k] == tail[k - 1];
        }
      }
      if b == nb && s == ns {
        if s0 > bestScore {
          assert b == Some(cands[0]) && s == AgentScore(l, cands[0], leads, loaded).value;
        }
      } else {
        var k' :| 0 <= k' < |tail| && b == Some(tail[k']) && s == AgentScore(l, tail[k'], leads, loaded).value
                  && ns < s && forall j :: 0 <= j < k' ==> AgentScore(l, tail[j], leads, loaded).value < s;
        assert tail[k'] == cands[k' + 1];
        forall j | 0 <= j < k' + 1 ensures AgentScore(l, cands[j], leads, loaded).value < s {
          if j > 0 {
            assert cands[j] == tail[j - 1];
          }
        }
      }
    }
  }

  /** A single candidate whose scoring raises aborts the whole selection. */
  lemma {:induction false} SelectFromError(l: Lead, cands: seq<Agent>, leads: seq<Lead>, loaded: Loaded, best: Option<Agent>, bestScore: real, k: nat)
    requires k < |cands| && AgentScore(l, cands[k], leads, loaded).Err?
    ensures SelectFrom(l, cands, leads, loaded, best, bestScore).Err?
    decreases |cands|
  {
    if k > 0 && AgentScore(l, cands[0], leads, loaded).Ok? {
      var s0 := AgentScore(l, cands[0], leads, loaded).value;
      assert cands[1..][k - 1] == cands[k];
      if s0 > bestScore {
        SelectFromError(l, cands[1..], leads, loaded, Some(cands[0]), s0, k - 1);
      } else {
        SelectFromError(l, cands[1..], leads, loaded, best, bestScore, k - 1);
      }
    }
  }

  /** No available agent: no agent is returned. */
  lemma NoneWithoutAvailableAgent(l: Lead, agents: seq<Agent>, leads: seq<Lead>, loaded: Loaded)
    requires forall k :: 0 <= k < |agents| ==> !CanTakeLead(agents[k], leads)
    ensures BestAgent(l, agents, leads, loaded) == None
  {
    var available := Available(agents, leads);
    assert forall i :: 0 <= i < |available| ==> available[i] in available;
  }

  /** A scoring error for any available agent, such as an undecodable
      specialization column, means no agent at all is returned. */
  lemma ErrorMeansNoAgent(l: Lead, agents: seq<Agent>, leads: seq<Lead>, loaded: Loaded, k: nat)
    requires k < |agents| && CanTakeLead(agents[k], leads) && AgentScore(l, agents[k], leads, loaded).Err?
    ensures BestAgent(l, agents, leads, loaded) == None
  {
    var available := Available(agents, leads);
    assert agents[k] in available;
    var i :| 0 <= i < |available| && available[i] == agents[k];
    SelectFromError(l, available, leads, loaded, None, -1.0, i);
  }

  /** A returned agent is available, scores at least as much as every
      available agent, and scores strictly more than every available agent
      before it in query order. */
  lemma BestAgentIsFirstMaximum(l: Lead, agents: seq<Agent>, leads: seq<Lead>, loaded: Loaded, a: Agent)
    requires BestAgent(l, agents, leads, loaded) == Some(a)
    ensures a in agents && CanTakeLead(a, leads)
    ensures AllScored(l, Available(agents, leads), leads, loaded)
    ensures forall b :: b in agents && CanTakeLead(b, leads) ==>
      AgentScore(l, b, leads, loaded).value <= AgentScore(l, a, leads, loaded).value
    ensures exists k :: (0 <= k < |Available(agents, leads)| && Available(agents, leads)[k] == a
      && forall j :: 0 <= j < k ==> AgentScore(l, Available(agents, leads)[j], leads, loaded).value < AgentScore(l, a, leads, loaded).value)
  {
    var available := Available(agents, leads);
    if !AllScored(l, available, leads, loaded) {
      var k :| 0 <= k < |available| && AgentScore(l, available[k], leads, loaded).Err?;
      SelectFromError(l, available, leads, loaded, None, -1.0, k);
      assert false;
    }
    SelectFromMaximum(l, available, leads, loaded, None, -1.0);
    forall b | b in agents && CanTakeLead(b, leads)
      ensures AgentScore(l, b, leads, loaded).value <= AgentScore(l, a, leads, loaded).value
    {
      assert b in available;
      var i :| 0 <= i < |available| && available[i] == b;
    }
  }

  /** With at least one available agent, all scoring successful and no
      agent with a negative conversion count, an agent is always returned:
      every score is at least 0 and so beats the starting -1. */
  lemma SomeAgentWhenAvailable(l: Lead, agents: seq<Agent>, leads: seq<Lead>, loaded: Loaded, k: nat)
    requires k < |agents| && CanTakeLead(agents[k], leads)
    requires forall j :: 0 <= j < |agents| ==> AgentScore(l, agents[j], leads, loaded).Ok?
    requires forall j :: 0 <= j < |agents| ==> agents[j].totalLeads <= 0 || agents[j].convertedLeads >= 0
    ensures BestAgent(l, agents, leads, loaded).Some?
  {
    var available := Available(agents, leads);
    assert agents[k] in available;
    assert AllScored(l, available, leads, loaded) by {
      forall i | 0 <= i < |available| ensures AgentScore(l, available[i], leads, loaded).Ok? {
        assert available[i] in agents;
      }
    }
    SelectFromMaximum(l, available, leads, loaded, None, -1.0);
    var i :| 0 <= i < |available| && available[i] == agents[k];
    assert AgentScore(l, available[i], leads, loaded).value >= 0.0;
  }

  // ---------------------------------------------------------------------
  // Small in-place updates of the inquiry handlers.
  // ---------------------------------------------------------------------

  /** The decoded interested list with `propertyId` appended when absent. */
  function WithProperty(items: seq<string>, propertyId: string): (r: seq<string>)
  {
    if propertyId in items then items else items + [propertyId]
  }

  /** After the update the property is listed, the old list is a prefix,
      the list grew by at most one and no entry gained a duplicate. */
  lemma WithPropertyAddsOnce(items: seq<string>, propertyId: string)
    ensures propertyId in WithProperty(items, propertyId)
    ensures items <= WithProperty(items, propertyId)
    ensures |WithProperty(items, propertyId)| <= |items| + 1
    ensures multiset(WithProperty(items, propertyId))
         == multiset(items) + (if propertyId in items then multiset{} else multiset{propertyId})
    ensures Distinct(items) ==> Distinct(WithProperty(items, propertyId))
  {
    var r := WithProperty(items, propertyId);
    if propertyId !in items {
      forall i, j | 0 <= i < j < |r| && Distinct(items) ensures r[i] != r[j] {
        if j == |items| {
          assert r[i] == items[i];
        }
      }
    }
  }

  /** The interested-properties step of an Instagram inquiry on an existing
      lead: the column is decoded (an absent column is an empty list), the
      property appended if absent, and the list written back. */
  method AddInterestedProperty(interested: JsonList, propertyId: string) returns (r: Result<JsonList>)
    requires |propertyId| > 0
    ensures r.Err? <==> interested.Malformed?
    ensures r.Ok? ==> r.value == Decoded(WithProperty(if interested.Decoded? then interested.items else [], propertyId))
  {
    var items: seq<string> := [];
    if !interested.NoList? {
      match interested
      case Malformed =>
        return Err(Internal("JSONDecodeError"));
      case Decoded(decoded) =>
        items := decoded;
    }
    if propertyId !in items {
      items := items + [propertyId];
      return Ok(Decoded(items));
    }
    r := Ok(interested);
  }

  /** The WhatsApp name fill: a supplied name is stored only when the lead
      has none. */
  function FillName(l: Lead, name: string): (r: Lead)
    ensures |l.name| > 0 ==> r == l
    ensures |l.name| == 0 ==> r == l.(name := name)
  {
    if |name| > 0 && |l.name| == 0 then l.(name := name) else l
  }

  /** The `per_page` argument of the lead listing: 20 when missing or not
      an integer, and never above 100. */
  function PerPage(arg: Option<int>): (r: int)
    ensures r <= 100
    ensures arg.None? ==> r == 20
    ensures arg.Some? ==> r == arg.value || (r == 100 && arg.value > 100)
  {
    var requested := if arg.Some? then arg.value else 20;
    if requested < 100 then requested else 100
  }

  // ---------------------------------------------------------------------
  // The inquiry handlers.
  // ---------------------------------------------------------------------

  /** A lead row as the constructor and the column defaults leave it. */
  function BlankLead(now: int): Lead
  {
    Lead(0, "", "", "", "", "", "", "", "", "", "new", "medium", 0, NoList, None, None, NoList, "",
         None, None, now, now, None)
  }

  function AgentIdOf(a: Option<Agent>): (r: Option<int>)
    ensures r.Some? <==> a.Some?
    ensures a.Some? ==> r.value == a.value.id
  {
    match a
    case None => None
    case Some(agent) => Some(agent.id)
  }

  /** The inbound message interaction both handlers record. */
  function InboundMessage(leadId: int, channel: string, message: string, now: int): Interaction
  {
    Interaction(leadId, "message", channel, "inbound", message, None, false, now)
  }

  datatype InquiryOutcome = InquiryOutcome(lead: Lead, isNew: bool)

  /** The lead an Instagram inquiry creates, before the agent and the id. */
  function InstagramLead(handle: string, message: string, postId: string, propertyId: string, now: int): Lead
  {
    BlankLead(now).(instagramHandle := handle, source := "instagram", sourcePostId := postId,
                    sourcePropertyId := propertyId, originalMessage := message,
                    interestedProperties := if |propertyId| > 0 then Decoded([propertyId]) else NoList)
  }

  /** The lead a WhatsApp inquiry creates, before the agent and the id. */
  function WhatsAppLead(number: string, message: string, name: string, now: int): Lead
  {
    BlankLead(now).(whatsappNumber := number, name := name, source := "whatsapp", originalMessage := message)
  }

  /** Stores the lead (at `k`, or appended when `k` is `None`), records the
      inbound interaction and rescores the lead with the interaction just
      recorded counted; a scoring error rolls everything back. */
  method RecordInquiry(db: Database, lead: Lead, k: Option<nat>, channel: string, message: string, now: int)
    returns (r: Result<Lead>)
    requires db.Valid()
    requires k.Some? ==> k.value < |db.leads| && db.leads[k.value].id == lead.id
    requires k.None? ==> lead.id == NextId(db.leads, LeadId)
    modifies db
    ensures db.Valid()
    ensures r.Err? <==> lead.interestedProperties.Malformed?
    ensures r.Err? ==> unchanged(db)
    ensures r.Ok? ==> r.value == lead.(score := r.value.score)
    ensures r.Ok? ==> db.agents == old(db.agents)
    ensures r.Ok? ==> db.interactions == old(db.interactions) + [InboundMessage(lead.id, channel, message, now)]
    ensures r.Ok? ==> db.leads == if k.Some? then old(db.leads)[k.value := r.value] else old(db.leads) + [r.value]
    ensures r.Ok? ==> Ok(r.value.score) == LeadScore(r.value, InteractionCount(db.interactions, lead.id), now)
  {
    var interaction := InboundMessage(lead.id, channel, message, now);
    var interactions := db.interactions + [interaction];
    InteractionCountAppend(db.interactions, interaction, lead.id);
    var scored := UpdateScore(lead, InteractionCount(interactions, lead.id), now);
    if scored.Err? {
      return Err(scored.error);
    }
    var stored := scored.value;
    if k.Some? {
      db.leads := db.leads[k.value := stored];
    } else {
      db.leads := db.leads + [stored];
    }
    db.interactions := interactions;
    r := Ok(stored);
  }

  /** `handle_instagram_inquiry`. An existing lead (first with this handle)
      gets its last contact time and, when a property id is given, the
      property added to its interests; otherwise a new lead is created and
      given the best agent. Either way one inbound interaction is recorded
      and the lead is rescored. */
  method InstagramInquiry(db: Database, handle: string, message: string, postId: string, propertyId: string, now: int)
    returns (r: Result<InquiryOutcome>)
    requires db.Valid()
    modifies db
    ensures db.Valid()
    ensures r.Err? ==> unchanged(db)
    ensures |handle| == 0 || |message| == 0 ==> r == Err(BadRequest("Instagram handle and message are required"))
    ensures var existing := FirstIndex(old(db.leads), (l: Lead) => l.instagramHandle == handle);
      r.Err? <==> |handle| == 0 || |message| == 0
                  || (existing.Some? && old(db.leads)[existing.value].interestedProperties.Malformed?)
    ensures r.Ok? ==> var existing := FirstIndex(old(db.leads), (l: Lead) => l.instagramHandle == handle);
      && r.value.isNew == existing.None?
      && db.agents == old(db.agents)
      && db.interactions == old(db.interactions) + [InboundMessage(r.value.lead.id, "instagram", message, now)]
      && Ok(r.value.lead.score) == LeadScore(r.value.lead, InteractionCount(db.interactions, r.value.lead.id), now)
      && (existing.Some? ==>
            var old_lead := old(db.leads)[existing.value];
            && db.leads == old(db.leads)[existing.value := r.value.lead]
            && r.value.lead == old_lead.(lastContactAt := Some(now), updatedAt := now, score := r.value.lead.score,
                 interestedProperties := if |propertyId| == 0 then old_lead.interestedProperties
                   else Decoded(WithProperty(if old_lead.interestedProperties.Decoded?
                                             then old_lead.interestedProperties.items else [], propertyId))))
      && (existing.None? ==>
            var created := InstagramLead(handle, message, postId, propertyId, now);
            && db.leads == old(db.leads) + [r.value.lead]
            && r.value.lead == created.(id := NextId(old(db.leads), LeadId), score := r.value.lead.score,
                 assignedAgentId := AgentIdOf(BestAgent(created, old(db.agents), old(db.leads), NothingLoaded))))
  {
    if |handle| == 0 || |message| == 0 {
      return Err(BadRequest("Instagram handle and message are required"));
    }
    var existing := FirstIndex(db.leads, (l: Lead) => l.instagramHandle == handle);
    var lead: Lead;
    if existing.Some? {
      lead := db.leads[existing.value];
      lead := lead.(lastContactAt := Some(now), updatedAt := now);
      if |propertyId| > 0 {
        var interested := AddInterestedProperty(lead.interestedProperties, propertyId);
        if interested.Err? {
          return Err(interested.error);
        }
        lead := lead.(interestedProperties := interested.value);
      }
    } else {
      lead := InstagramLead(handle, message, postId, propertyId, now);
      var agent, _ := FindBestAgent(lead, db.agents, db.leads, NothingLoaded);
      if agent.Some? {
        lead := lead.(assignedAgentId := Some(agent.value.id));
      }
      lead := lead.(id := NextId(db.leads, LeadId));
    }
    var stored := RecordInquiry(db, lead, existing, "instagram", message, now);
    if stored.Err? {
      return Err(stored.error);
    }
    r := Ok(InquiryOutcome(stored.value, existing.None?));
  }

  /** `handle_whatsapp_inquiry`. An existing lead (first with this number)
      gets its last contact time and, if it has no name, the supplied name;
      otherwise a new lead is created and given the best agent. Either way
      one inbound interaction is recorded and the lead is rescored. */
  method WhatsAppInquiry(db: Database, number: string, message: string, name: string, now: int)
    returns (r: Result<InquiryOutcome>)
    requires db.Valid()
    modifies db
    ensures db.Valid()
    ensures r.Err? ==> unchanged(db)
    ensures |number| == 0 || |message| == 0 ==> r == Err(BadRequest("WhatsApp number and message are required"))
    ensures var existing := FirstIndex(old(db.leads), (l: Lead) => l.whatsappNumber == number);
      r.Err? <==> |number| == 0 || |message| == 0
                  || (existing.Some? && old(db.leads)[existing.value].interestedProperties.Malformed?)
    ensures r.Ok? ==> var existing := FirstIndex(old(db.leads), (l: Lead) => l.whatsappNumber == number);
      && r.value.isNew == existing.None?
      && db.agents == old(db.agents)
      && db.interactions == old(db.interactions) + [InboundMessage(r.value.lead.id, "whatsapp", message, now)]
      && Ok(r.value.lead.score) == LeadScore(r.value.lead, InteractionCount(db.interactions, r.value.lead.id), now)
      && (existing.Some? ==>
            var old_lead := old(db.leads)[existing.value];
            && db.leads == old(db.leads)[existing.value := r.value.lead]
            && r.value.lead == FillName(old_lead, name).(lastContactAt := Some(now), updatedAt := now,
                                                          score := r.value.lead.score))
      && (existing.None? ==>
            var created := WhatsAppLead(number, message, name, now);
            && db.leads == old(db.leads) + [r.value.lead]
            && r.value.lead == created.(id := NextId(old(db.leads), LeadId), score := r.value.lead.score,
                 assignedAgentId := AgentIdOf(BestAgent(created, old(db.agents), old(db.leads), NothingLoaded))))
  {
    if |number| == 0 || |message| == 0 {
      return Err(BadRequest("WhatsApp number and message are required"));
    }
    var existing := FirstIndex(db.leads, (l: Lead) => l.whatsappNumber == number);
    var lead: Lead;
    if existing.Some? {
      lead := db.leads[existing.value];
      lead := lead.(lastContactAt := Some(now), updatedAt := now);
      if |name| > 0 && |lead.name| == 0 {
        lead := lead.(name := name);
      }
    } else {
      lead := WhatsAppLead(number, message, name, now);
      var agent, _ := FindBestAgent(lead, db.agents, db.leads, NothingLoaded);
      if agent.Some? {
        lead := lead.(assignedAgentId := Some(agent.value.id));
      }
      lead := lead.(id := NextId(db.leads, LeadId));
    }
    var stored := RecordInquiry(db, lead, existing, "whatsapp", message, now);
    if stored.Err? {
      return Err(stored.error);
    }
    r := Ok(InquiryOutcome(stored.value, existing.None?));
  }
}
