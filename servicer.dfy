/**
 * MarcomCoreServicer.py without the gRPC plumbing: the class-level registry of
 * running simulations and of the event generator of each, with the Start,
 * Pause and Stream requests acting on it.
 *
 * A generator is represented by the events it has yet to produce; the
 * run_simulation body it comes from is not part of this model, so Start takes
 * that event sequence as a parameter.
 */
module Servicer {
  import opened Wrappers
  import opened Utils
  import opened Products
  import opened Db
  import opened Agents
  import opened Simulations

  /** The parts of a StartSimulation request the registry reads. */
  datatype AttrSpec = AttrSpec(key: string, value: string)
  datatype AgentSpec = AgentSpec(id: int, name: string, desc: string, attrs: seq<AttrSpec>)
  datatype ProductSpec = ProductSpec(id: int, name: string, desc: string, price: string, cost: string)
  datatype StartRequest = StartRequest(id: int, envDesc: string, agents: seq<AgentSpec>, products: seq<ProductSpec>, totalCycles: int)

  /** One SimulationUpdate message of the stream. */
  datatype Update = Update(agentId: int, action: string, content: string, cycle: Option<int>, simulationId: int)

  /** How a stream call ends. */
  datatype StreamEnd =
    | NotFound    // no simulation with this id: nothing is yielded
    | PausedStop  // the paused flag was seen before a pull
    | Raised      // the generator ran out and the StopIteration handler raised

  const StartResumed: string := "Simulation exist in core, calling stream to listen to updates"
  const StartAdded: string := "Simulation added, calling stream to initialise and run simulation"
  const PauseFound: string := "Pausing the simulation gracefully..."
  const PauseMissing: string := "No such simulation in the system, is StartSimulation called?"

  /** The update sent for an event: agent id 0 stands for a simulation-level event. */
  function ToUpdate(e: Event): (u: Update)
    ensures e.agent.None? ==> u.agentId == 0
    ensures e.agent.Some? ==> u.agentId == e.agent.value
    ensures u.action == e.kind && u.content == e.content && u.cycle == e.cycle && u.simulationId == e.simId
  {
    Update(if e.agent.None? then 0 else e.agent.value, e.kind, e.content, e.cycle, e.simId)
  }

  function Updates(events: seq<Event>): (us: seq<Update>)
    ensures |us| == |events| && forall i :: 0 <= i < |events| ==> us[i] == ToUpdate(events[i])
  {
    if |events| == 0 then [] else Updates(events[..|events| - 1]) + [ToUpdate(events[|events| - 1])]
  }

  lemma UpdatesAppend(a: seq<Event>, b: seq<Event>)
    ensures Updates(a + b) == Updates(a) + Updates(b)
  {
  }

  /**
   * The position of the first simulation of sims, from k on, whose id is id:
   * the `[sim for sim in ... if int(sim.id) == int(id)]` comprehensions
   * followed by `[0]`.
   */
  function FindFrom(sims: seq<Simulation>, id: int, k: nat): (r: Option<nat>)
    requires k <= |sims|
    ensures r.Some? ==> k <= r.value < |sims| && sims[r.value].id == id
    ensures r.Some? ==> forall j :: k <= j < r.value ==> sims[j].id != id
    ensures r.None? ==> forall j :: k <= j < |sims| ==> sims[j].id != id
    decreases |sims| - k
  {
    if k == |sims| then None
    else if sims[k].id == id then Some(k)
    else FindFrom(sims, id, k + 1)
  }

  function Find(sims: seq<Simulation>, id: int): (r: Option<nat>)
    ensures r.Some? ==> r.value < |sims| && sims[r.value].id == id && forall j :: 0 <= j < r.value ==> sims[j].id != id
    ensures r.None? <==> forall j :: 0 <= j < |sims| ==> sims[j].id != id
  {
    FindFrom(sims, id, 0)
  }

  /** The attributes of one requested agent, in request order. */
  method BuildAttributes(specs: seq<AttrSpec>) returns (attrs: seq<Attribute>)
    ensures |attrs| == |specs|
    ensures forall i :: 0 <= i < |specs| ==> attrs[i] == Attribute(specs[i].key, specs[i].value)
  {
    attrs := [];
    for i := 0 to |specs|
      invariant |attrs| == i
      invariant forall j :: 0 <= j < i ==> attrs[j] == Attribute(specs[j].key, specs[j].value)
    {
      attrs := attrs + [Attribute(specs[i].key, specs[i].value)];
    }
  }

  /** The product built from a request entry for simulation simId. */
  function ProductOf(p: ProductSpec, simId: int): Product {
    Product(p.id, p.name, p.desc, p.price, p.cost, simId)
  }

  /** The products of the request, in request order, each tagged with the simulation id. */
  method BuildProducts(specs: seq<ProductSpec>, simId: int) returns (products: seq<Product>)
    ensures |products| == |specs|
    ensures forall i :: 0 <= i < |specs| ==> products[i] == ProductOf(specs[i], simId)
  {
    products := [];
    for i := 0 to |specs|
      invariant |products| == i
      invariant forall j :: 0 <= j < i ==> products[j] == ProductOf(specs[j], simId)
    {
      var p := specs[i];
      products := products + [Product(p.id, p.name, p.desc, p.price, p.cost, simId)];
    }
  }

  /** The attributes a requested agent carries once built. */
  function AttributesOf(spec: AgentSpec): seq<Attribute> {
    seq(|spec.attrs|, i requires 0 <= i < |spec.attrs| => Attribute(spec.attrs[i].key, spec.attrs[i].value))
  }

  /**
   * An agent built from a request entry for simulation simId, sharing the
   * class-level memory cls, with the description the rewrite generator gave it.
   */
  predicate BuiltFrom(a: Agent, spec: AgentSpec, simId: int, cls: AgentClass, rewriter: RewriteRequest -> seq<Outcome<string>>) {
    && a.id == spec.id && a.name == spec.name && a.desc == spec.desc && a.attrs == AttributesOf(spec)
    && a.simulationId == simId && a.cls == cls
    && RewriteAnswers(rewriter, spec.name, spec.desc, AttributesOf(spec))
    && a.simDesc == Accepted(rewriter(RewriteDescription(spec.name, spec.desc)), RewriteFields, None)["description"]
                    + Accepted(rewriter(RewriteAttributes(AttributesOf(spec))), RewriteFields, None)["description"]
  }

  /** The rewrite generator answers both rewrite requests of every requested agent. */
  predicate RewritesAnswer(specs: seq<AgentSpec>, rewriter: RewriteRequest -> seq<Outcome<string>>) {
    forall i :: 0 <= i < |specs| ==> RewriteAnswers(rewriter, specs[i].name, specs[i].desc, AttributesOf(specs[i]))
  }

  /** The agents of the request, in request order, each constructed for simulation simId. */
  method BuildAgents(specs: seq<AgentSpec>, simId: int, cls: AgentClass, rewriter: RewriteRequest -> seq<Outcome<string>>)
    returns (agents: seq<Agent>)
    requires RewritesAnswer(specs, rewriter)
    ensures |agents| == |specs|
    ensures forall i :: 0 <= i < |specs| ==> BuiltFrom(agents[i], specs[i], simId, cls, rewriter)
  {
    agents := [];
    for i := 0 to |specs|
      invariant |agents| == i
      invariant forall j :: 0 <= j < i ==> BuiltFrom(agents[j], specs[j], simId, cls, rewriter)
    {
      var spec := specs[i];
      var attrs := BuildAttributes(spec.attrs);
      assert attrs == AttributesOf(spec);
      var a := new Agent(spec.id, spec.name, spec.desc, attrs, simId, cls, rewriter);
      agents := agents + [a];
    }
  }

  class Registry {
    var currentSimulations: seq<Simulation>
    /** The generator of each registered simulation, by id, as the events it has yet to yield. */
    var simulationGenerators: map<int, seq<Event>>
    /** The class-level memory every Agent shares. */
    const agentClass: AgentClass
    const table: EventTable

    /** Every listed simulation has a generator, and no two listed simulations share an id. */
    ghost predicate Valid()
      reads this
    {
      && (forall i :: 0 <= i < |currentSimulations| ==> currentSimulations[i].id in simulationGenerators)
      && (forall i, j :: 0 <= i < j < |currentSimulations| ==> currentSimulations[i].id != currentSimulations[j].id)
    }

    constructor (agentClass: AgentClass, table: EventTable)
      ensures Valid() && currentSimulations == [] && simulationGenerators == map[]
      ensures this.agentClass == agentClass && this.table == table
    {
      currentSimulations := [];
      simulationGenerators := map[];
      this.agentClass := agentClass;
      this.table := table;
    }

    /**
     * StartSimulation: a listed id is resumed and nothing is added; a new id
     * gets exactly one new simulation, built from the request with agents and
     * products in request order, appended to the list, and its generator
     * registered under the id. firstRun says which agents' init_agent()
     * reports a first run; run is what the new generator will yield.
     */
    method StartSimulation(req: StartRequest, rewriter: RewriteRequest -> seq<Outcome<string>>,
                           firstRun: seq<bool>, run: seq<Event>) returns (message: string)
      requires Valid()
      requires |firstRun| == |req.agents|
      requires RewritesAnswer(req.agents, rewriter)
      modifies this, table, currentSimulations`paused
      ensures Valid()
      ensures var found := Find(old(currentSimulations), req.id);
        found.Some? ==>
          && message == StartResumed
          && currentSimulations == old(currentSimulations)
          && simulationGenerators == old(simulationGenerators)
          && !currentSimulations[found.value].paused
          && table.rows == old(table.rows)
          && forall i :: 0 <= i < |currentSimulations| && i != found.value ==>
               currentSimulations[i].paused == old(currentSimulations[i].paused)
      ensures var found := Find(old(currentSimulations), req.id);
        found.None? ==>
          && message == StartAdded
          && |currentSimulations| == |old(currentSimulations)| + 1
          && currentSimulations[..|old(currentSimulations)|] == old(currentSimulations)
          && simulationGenerators == old(simulationGenerators)[req.id := run]
          && var sim := currentSimulations[|old(currentSimulations)|];
          && fresh(sim)
          && sim.id == req.id && sim.envDesc == req.envDesc && sim.totalCycle == req.totalCycles
          && sim.cycle == 1 && !sim.paused
          && |sim.agents| == |req.agents|
          && (forall i :: 0 <= i < |req.agents| ==> BuiltFrom(sim.agents[i], req.agents[i], req.id, agentClass, rewriter))
          && |sim.products| == |req.products|
          && (forall i :: 0 <= i < |req.products| ==> sim.products[i] == ProductOf(req.products[i], req.id))
          && table.rows == old(table.rows) + InitEvents(req.id, sim.agents, firstRun)
          && forall i :: 0 <= i < |old(currentSimulations)| ==>
               currentSimulations[i].paused == old(currentSimulations[i].paused)
    {
      var found := Find(currentSimulations, req.id);
      if found.Some? {
        // resume_simulation
        currentSimulations[found.value].paused := false;
        return StartResumed;
      }
      var agents := BuildAgents(req.agents, req.id, agentClass, rewriter);
      var products := BuildProducts(req.products, req.id);
      var sim := new Simulation(req.id, req.envDesc, agents, products, req.totalCycles, firstRun, table);
      currentSimulations := currentSimulations + [sim];
      simulationGenerators := simulationGenerators[sim.id := run];
      return StartAdded;
    }

    /** PauseSimulation: the first simulation with this id gets its paused flag set; an unknown id changes nothing. */
    method PauseSimulation(id: int) returns (message: string)
      requires Valid()
      modifies currentSimulations`paused
      ensures var found := Find(currentSimulations, id);
        && (found.Some? ==> message == PauseFound && currentSimulations[found.value].paused)
        && (found.None? ==> message == PauseMissing)
        && forall i :: 0 <= i < |currentSimulations| && Some(i) != found ==>
             currentSimulations[i].paused == old(currentSimulations[i].paused)
    {
      var found := Find(currentSimulations, id);
      if found.Some? {
        // pause_simulation
        currentSimulations[found.value].paused := true;
        return PauseFound;
      }
      return PauseMissing;
    }

    /**
     * StreamSimulationUpdates: one update per event pulled, in the order the
     * generator yields them, the paused flag checked before every pull; what was
     * not pulled stays in the generator. pauseAfter models a PauseSimulation
     * served on another thread once that many updates have been yielded. When
     * the generator runs out, the handler raises before anything is removed.
     */
    method StreamSimulationUpdates(id: int, pauseAfter: Option<nat>) returns (updates: seq<Update>, end: StreamEnd)
      requires Valid()
      modifies this`simulationGenerators, currentSimulations`paused
      ensures Valid()
      ensures currentSimulations == old(currentSimulations)
      ensures simulationGenerators.Keys == old(simulationGenerators.Keys)
      ensures var found := Find(currentSimulations, id);
        found.None? ==> end == NotFound && updates == [] && simulationGenerators == old(simulationGenerators)
      ensures var found := Find(currentSimulations, id);
        found.Some? ==>
          var events := old(simulationGenerators[id]);
          && end != NotFound
          && |updates| <= |events|
          && updates == Updates(events[..|updates|])
          && simulationGenerators == old(simulationGenerators)[id := events[|updates|..]]
          && (end == Raised ==> |updates| == |events|)
          && (end == PausedStop ==> currentSimulations[found.value].paused)
          && (old(currentSimulations[found.value].paused) ==> end == PausedStop && updates == [])
          && ((!old(currentSimulations[found.value].paused) && pauseAfter.Some? && pauseAfter.value <= |events|)
              ==> end == PausedStop && |updates| == pauseAfter.value)
          && ((!old(currentSimulations[found.value].paused) && (pauseAfter.None? || pauseAfter.value > |events|))
              ==> end == Raised)
          && currentSimulations[found.value].paused ==
               (old(currentSimulations[found.value].paused)
                || (pauseAfter.Some? && pauseAfter.value <= |old(simulationGenerators[id])|))
      ensures forall i :: 0 <= i < |currentSimulations| && Some(i) != Find(currentSimulations, id) ==>
        currentSimulations[i].paused == old(currentSimulations[i].paused)
    {
      var found := Find(currentSimulations, id);
      if found.None? {
        return [], NotFound;
      }
      updates, end := Drain(currentSimulations[found.value], id, pauseAfter);
    }

    /** The loop of StreamSimulationUpdates for a listed simulation sim and its generator under id. */
    method Drain(sim: Simulation, id: int, pauseAfter: Option<nat>) returns (updates: seq<Update>, end: StreamEnd)
      requires id in simulationGenerators
      modifies this`simulationGenerators, sim`paused
      ensures var events := old(simulationGenerators[id]);
        && end != NotFound
        && |updates| <= |events|
        && updates == Updates(events[..|updates|])
        && simulationGenerators == old(simulationGenerators)[id := events[|updates|..]]
        && (end == Raised ==> |updates| == |events|)
        && (end == PausedStop ==> sim.paused)
        && (old(sim.paused) ==> end == PausedStop && updates == [])
        && ((!old(sim.paused) && pauseAfter.Some? && pauseAfter.value <= |events|)
            ==> end == PausedStop && |updates| == pauseAfter.value)
        && ((!old(sim.paused) && (pauseAfter.None? || pauseAfter.value > |events|)) ==> end == Raised)
      ensures sim.paused == (old(sim.paused) || (pauseAfter.Some? && pauseAfter.value <= |old(simulationGenerators[id])|))
    {
      ghost var events := simulationGenerators[id];
      ghost var wasPaused := sim.paused;
      updates := [];
      while true
        invariant |updates| <= |events|
        invariant updates == Updates(events[..|updates|])
        invariant simulationGenerators == old(simulationGenerators)[id := events[|updates|..]]
        invariant wasPaused ==> updates == [] && sim.paused
        invariant !wasPaused ==> !sim.paused && (pauseAfter.Some? ==> |updates| <= pauseAfter.value)
        decreases |events| - |updates|
      {
        if pauseAfter == Some(|updates|) {
          // the concurrent PauseSimulation
          sim.paused := true;
        }
        if sim.paused {
          return updates, PausedStop;
        }
        var pending := simulationGenerators[id];
        if |pending| == 0 {
          // StopIteration: the handler reads an unassigned local and raises
          return updates, Raised;
        }
        simulationGenerators := simulationGenerators[id := pending[1..]];
        assert pending[0] == events[|updates|];
        assert events[..|updates| + 1][..|updates|] == events[..|updates|];
        updates := updates + [ToUpdate(pending[0])];
        assert events[|updates|..] == pending[1..];
      }
    }
  }
}
