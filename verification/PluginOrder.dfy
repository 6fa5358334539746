/** Ordering enabled plugins by the capabilities they need
    (plugins/hostconfig/plugin_config.go, decodePluginConfigs). */
module PluginOrder {
  import opened Wrappers

  type Id = nat
  type Capability = nat

  const NoId: Id := 0

  datatype Plugin = Plugin(offers: seq<Capability>, needs: seq<Capability>)

  /** A config entry; `enabled` may be missing, and `decoded` is None when the
      plugin refuses its own config. */
  datatype Entry = Entry(id: Id, enabled: Option<bool>, decoded: Option<Plugin>)

  datatype ConfigError =
    | NoIdentity | DuplicateId | NotEnabledOrDisabled | BadConfig
    | CapabilityTwice | CapabilityMissing | CyclicDependency

  datatype Mark = InProgress | Finished

  // ------------------------------------------------------------- entries

  ghost predicate ReadUpTo(entries: seq<Entry>, k: nat, plugins: map<Id, Plugin>, active: map<Id, bool>)
    requires k <= |entries|
  {
    && plugins.Keys == active.Keys
    && (forall i | 0 <= i < k ::
          && entries[i].id != NoId && entries[i].enabled.Some? && entries[i].decoded.Some?
          && entries[i].id in plugins && plugins[entries[i].id] == entries[i].decoded.value
          && active[entries[i].id] == entries[i].enabled.value)
    && (forall i, j | 0 <= i < j < k :: entries[i].id != entries[j].id)
    && (forall id | id in plugins :: exists i :: 0 <= i < k && entries[i].id == id)
  }

  /** Every entry has its own id, says whether it is enabled, and decodes. */
  ghost predicate Readable(entries: seq<Entry>) {
    && (forall i | 0 <= i < |entries| :: entries[i].id != NoId && entries[i].enabled.Some? && entries[i].decoded.Some?)
    && (forall i, j | 0 <= i < j < |entries| :: entries[i].id != entries[j].id)
  }

  method ReadEntries(entries: seq<Entry>) returns (r: Result<(map<Id, Plugin>, map<Id, bool>), ConfigError>)
    ensures r.Ok? <==> Readable(entries)
    ensures r.Ok? ==> ReadUpTo(entries, |entries|, r.value.0, r.value.1)
  {
    var plugins: map<Id, Plugin>, active: map<Id, bool> := map[], map[];
    for i := 0 to |entries|
      invariant ReadUpTo(entries, i, plugins, active)
    {
      var entry := entries[i];
      if entry.id == NoId {
        return Err(NoIdentity);
      }
      if entry.id in plugins {
        return Err(DuplicateId);
      }
      if entry.enabled.None? {
        return Err(NotEnabledOrDisabled);
      }
      if entry.decoded.None? {
        return Err(BadConfig);
      }
      plugins := plugins[entry.id := entry.decoded.value];
      active := active[entry.id := entry.enabled.value];
    }
    return Ok((plugins, active));
  }

  /** The enabled ids in config order. */
  function ActiveIds(entries: seq<Entry>): seq<Id> {
    if entries == [] then []
    else (if entries[0].enabled == Some(true) then [entries[0].id] else []) + ActiveIds(entries[1..])
  }

  lemma {:induction false} ActiveIn(entries: seq<Entry>, id: Id)
    ensures id in ActiveIds(entries) <==> exists i :: 0 <= i < |entries| && entries[i].id == id && entries[i].enabled == Some(true)
  {
    if entries != [] {
      ActiveIn(entries[1..], id);
      if i :| 0 <= i < |entries[1..]| && entries[1..][i].id == id && entries[1..][i].enabled == Some(true) {
        assert entries[i + 1].id == id;
      }
      if i :| 0 <= i < |entries| && entries[i].id == id && entries[i].enabled == Some(true) && i > 0 {
        assert entries[1..][i - 1].id == id;
      }
    }
  }

  lemma {:induction false} ActiveDistinct(entries: seq<Entry>)
    requires forall i, j | 0 <= i < j < |entries| :: entries[i].id != entries[j].id
    ensures Distinct(ActiveIds(entries))
  {
    if entries != [] {
      assert forall i | 0 <= i < |entries[1..]| :: entries[1..][i] == entries[i + 1];
      ActiveDistinct(entries[1..]);
      ActiveIn(entries[1..], entries[0].id);
      var rest := ActiveIds(entries[1..]);
      forall i, j | 0 <= i < j < |ActiveIds(entries)|
        ensures ActiveIds(entries)[i] != ActiveIds(entries)[j]
      {
        if entries[0].enabled == Some(true) {
          assert ActiveIds(entries)[j] == rest[j - 1] && rest[j - 1] in rest;
        }
      }
    }
  }

  ghost predicate Distinct(ids: seq<Id>) {
    forall i, j | 0 <= i < j < |ids| :: ids[i] != ids[j]
  }

  // ------------------------------------------------------------- providers

  /** A capability and the plugin that provides it. */
  datatype Offer = Offer(capability: Capability, owner: Id)

  /** All capabilities of the plugins, in order. */
  function Provided(plugins: map<Id, Plugin>, ids: seq<Id>): seq<Offer>
    requires forall id | id in ids :: id in plugins
  {
    if ids == [] then []
    else ProvidedBy(plugins[ids[0]].offers, ids[0]) + Provided(plugins, ids[1..])
  }

  function ProvidedBy(capabilities: seq<Capability>, id: Id): seq<Offer> {
    if capabilities == [] then [] else [Offer(capabilities[0], id)] + ProvidedBy(capabilities[1..], id)
  }

  /** No capability is provided twice, by two plugins or by one. */
  ghost predicate UniqueCapabilities(all: seq<Offer>) {
    forall i, j | 0 <= i < j < |all| :: all[i].capability != all[j].capability
  }

  ghost predicate ProvidersOf(all: seq<Offer>, k: nat, providers: map<Capability, Id>)
    requires k <= |all|
  {
    && (forall i | 0 <= i < k :: all[i].capability in providers && providers[all[i].capability] == all[i].owner)
    && (forall c | c in providers :: exists i :: 0 <= i < k && all[i].capability == c)
    && (forall i, j | 0 <= i < j < k :: all[i].capability != all[j].capability)
  }

  method FindProviders(all: seq<Offer>) returns (r: Result<map<Capability, Id>, ConfigError>)
    ensures r.Ok? <==> UniqueCapabilities(all)
    ensures r.Ok? ==> ProvidersOf(all, |all|, r.value)
  {
    var providers: map<Capability, Id> := map[];
    for i := 0 to |all|
      invariant ProvidersOf(all, i, providers)
    {
      if all[i].capability in providers {
        return Err(CapabilityTwice);
      }
      providers := providers[all[i].capability := all[i].owner];
    }
    return Ok(providers);
  }

  // ----------------------------------------------------------- the graph

  /** What ordering sees: plugins, and who provides what. */
  datatype Graph = Graph(plugins: map<Id, Plugin>, providers: map<Capability, Id>)

  ghost predicate Known(g: Graph) {
    forall c | c in g.providers :: g.providers[c] in g.plugins
  }

  ghost predicate Edge(g: Graph, a: Id, b: Id) {
    a in g.plugins && exists c :: c in g.plugins[a].needs && c in g.providers && g.providers[c] == b
  }

  ghost predicate AllProvided(g: Graph, id: Id)
    requires id in g.plugins
  {
    forall c | c in g.plugins[id].needs :: c in g.providers
  }

  /** Each plugin comes after the providers of everything it needs. */
  ghost predicate ProvidersFirst(g: Graph, order: seq<Id>) {
    forall i | 0 <= i < |order| :: order[i] in g.plugins && Satisfied(g, order[i], order[..i])
  }

  ghost predicate Satisfied(g: Graph, id: Id, before: seq<Id>)
    requires id in g.plugins
  {
    forall c | c in g.plugins[id].needs :: c in g.providers && g.providers[c] in before
  }

  ghost predicate Path(g: Graph, path: seq<Id>) {
    forall i | 0 <= i < |path| - 1 :: Edge(g, path[i], path[i + 1])
  }

  /** A cycle: at least one edge, from a plugin back to itself. */
  ghost predicate Cycle(g: Graph, path: seq<Id>) {
    |path| > 1 && path[0] == path[|path| - 1] && Path(g, path)
  }

  ghost predicate Reaches(g: Graph, roots: seq<Id>, path: seq<Id>) {
    path != [] && path[0] in roots && Path(g, path)
  }

  // --------------------------------------------------------------- search

  /** The search so far: `ordered` is finished, `stack` in progress. */
  ghost predicate Searching(g: Graph, state: map<Id, Mark>, ordered: seq<Id>, stack: seq<Id>) {
    forall x | x == state :: Search(g, x, ordered, stack)
  }

  ghost predicate Search(g: Graph, state: map<Id, Mark>, ordered: seq<Id>, stack: seq<Id>) {
    && Known(g)
    && (forall id | id in state :: id in g.plugins)
    && (forall id :: id in ordered <==> id in state && state[id] == Finished)
    && (forall id :: id in stack <==> id in state && state[id] == InProgress)
    && Distinct(ordered) && ProvidersFirst(g, ordered) && Path(g, stack)
  }

  /** Why a search fails, from the plugin it was at. */
  ghost predicate Reason(g: Graph, error: ConfigError) {
    forall x | x == error :: Explains(g, x)
  }

  ghost predicate Explains(g: Graph, error: ConfigError) {
    || (error == CapabilityMissing && exists id :: id in g.plugins && !AllProvided(g, id))
    || (error == CyclicDependency && exists path :: Cycle(g, path))
  }

  lemma PathExtends(g: Graph, stack: seq<Id>, id: Id)
    requires Path(g, stack) && (stack != [] ==> Edge(g, stack[|stack| - 1], id))
    ensures Path(g, stack + [id])
  {
  }

  /** Coming back to a plugin in progress closes a cycle. */
  lemma BackEdge(g: Graph, stack: seq<Id>, id: Id)
    requires Path(g, stack) && id in stack && Edge(g, stack[|stack| - 1], id)
    ensures exists path :: Cycle(g, path)
  {
    var k :| 0 <= k < |stack| && stack[k] == id;
    PathExtends(g, stack, id);
    var path := (stack + [id])[k..];
    forall i | 0 <= i < |path| - 1
      ensures Edge(g, path[i], path[i + 1])
    {
      assert path[i] == (stack + [id])[k + i] && path[i + 1] == (stack + [id])[k + i + 1];
    }
    assert Cycle(g, path);
  }

  /** How many plugins the search has not reached. */
  ghost function Left(g: Graph, state: map<Id, Mark>): nat {
    |g.plugins.Keys - state.Keys|
  }

  lemma LeftStays(g: Graph, state: map<Id, Mark>, state': map<Id, Mark>)
    requires state.Keys <= state'.Keys
    ensures Left(g, state') <= Left(g, state)
  {
    CardinalityMonotone(g.plugins.Keys - state'.Keys, g.plugins.Keys - state.Keys);
  }

  lemma LeftShrinks(g: Graph, state: map<Id, Mark>, id: Id)
    requires id in g.plugins && id !in state
    ensures Left(g, state[id := InProgress]) < Left(g, state)
  {
    assert g.plugins.Keys - state[id := InProgress].Keys == (g.plugins.Keys - state.Keys) - {id};
  }

  class Resolver {
    const g: Graph
    var state: map<Id, Mark>
    var ordered: seq<Id>

    constructor (graph: Graph)
      ensures g == graph && state == map[] && ordered == []
    {
      g, state, ordered := graph, map[], [];
    }

    /** visit. It fails only at a capability nobody provides, or at a cycle.
        A plugin whose providers are all there is simply next. */
    method Visit(id: Id, ghost stack: seq<Id>) returns (r: Result<(), ConfigError>)
      requires Searching(g, state, ordered, stack) && id in g.plugins
      requires stack != [] ==> Edge(g, stack[|stack| - 1], id)
      modifies this
      ensures r.Ok? ==> Searching(g, state, ordered, stack) && id in ordered && old(ordered) <= ordered
      ensures r.Ok? ==> old(state).Keys <= state.Keys
      ensures id in old(ordered) ==> r.Ok? && ordered == old(ordered)
      ensures id !in old(ordered) && id !in stack && SatisfiedUpTo(g, id, |g.plugins[id].needs|, old(ordered)) ==>
                r.Ok? && ordered == old(ordered) + [id]
      ensures r.Err? ==> Reason(g, r.error)
      decreases Left(g, state), 0
    {
      assert Search(g, state, ordered, stack);
      if id in state && state[id] == Finished {
        return Ok(());
      }
      if id in state && state[id] == InProgress {
        BackEdge(g, stack, id);
        assert Explains(g, CyclicDependency);
        return Err(CyclicDependency);
      }
      StartSearch(g, state, ordered, stack, id);
      LeftShrinks(g, state, id);
      state := state[id := InProgress];
      var needed :- VisitNeeds(id, stack);
      SatisfiedIs(g, id, ordered);
      FinishSearch(g, state, ordered, stack, id);
      state := state[id := Finished];
      ordered := ordered + [id];
      return Ok(());
    }

    /** The loop of visit over what the plugin needs. */
    method VisitNeeds(id: Id, ghost stack: seq<Id>) returns (r: Result<(), ConfigError>)
      requires Searching(g, state, ordered, stack + [id]) && id in g.plugins
      modifies this
      ensures r.Ok? ==> Searching(g, state, ordered, stack + [id]) && old(ordered) <= ordered
      ensures r.Ok? ==> old(state).Keys <= state.Keys && SatisfiedUpTo(g, id, |g.plugins[id].needs|, ordered)
      ensures SatisfiedUpTo(g, id, |g.plugins[id].needs|, old(ordered)) ==> r.Ok? && ordered == old(ordered)
      ensures r.Err? ==> Reason(g, r.error)
      decreases Left(g, state), 2
    {
      var needs := g.plugins[id].needs;
      ghost var start, seen := ordered, state;
      NoneNeeded(g, id, ordered);
      for i := 0 to |needs|
        invariant Visiting(i, id, stack, start, seen)
      {
        var visited :- VisitNeed(i, id, stack, start, seen);
      }
      return Ok(());
    }

    /** The first i needs of `id` have been visited. */
    ghost predicate Visiting(i: nat, id: Id, stack: seq<Id>, start: seq<Id>, seen: map<Id, Mark>)
      reads this
      requires id in g.plugins && i <= |g.plugins[id].needs|
    {
      && Searching(g, state, ordered, stack + [id]) && start <= ordered && seen.Keys <= state.Keys
      && SatisfiedUpTo(g, id, i, ordered)
      && (SatisfiedUpTo(g, id, |g.plugins[id].needs|, start) ==> ordered == start)
    }

    method VisitNeed(i: nat, id: Id, ghost stack: seq<Id>, ghost start: seq<Id>, ghost seen: map<Id, Mark>)
      returns (r: Result<(), ConfigError>)
      requires id in g.plugins && i < |g.plugins[id].needs| && Visiting(i, id, stack, start, seen)
      modifies this
      ensures r.Ok? ==> Visiting(i + 1, id, stack, start, seen)
      ensures r.Err? ==> Reason(g, r.error) && !SatisfiedUpTo(g, id, |g.plugins[id].needs|, start)
      decreases Left(g, seen), 1
    {
      var need := g.plugins[id].needs[i];
      if SatisfiedUpTo(g, id, |g.plugins[id].needs|, start) {
        MetProvider(g, id, i, start);
      }
      if need !in g.providers {
        MissingReason(g, id, i);
        return Err(CapabilityMissing);
      }
      NeedIsEdge(g, state, ordered, stack + [id], id, i);
      LeftStays(g, seen, state);
      ghost var before := ordered;
      var visited :- Visit(g.providers[need], stack + [id]);
      OneMoreMet(g, id, i, before, ordered);
      return Ok(());
    }
  }

  /** The first k needs of a plugin are met by what is before it. */
  ghost predicate SatisfiedUpTo(g: Graph, id: Id, k: nat, before: seq<Id>)
    requires id in g.plugins && k <= |g.plugins[id].needs|
  {
    forall x | x == before :: NeedsMet(g, id, k, x)
  }

  ghost predicate NeedsMet(g: Graph, id: Id, k: nat, before: seq<Id>)
    requires id in g.plugins && k <= |g.plugins[id].needs|
  {
    forall i | 0 <= i < k :: g.plugins[id].needs[i] in g.providers && g.providers[g.plugins[id].needs[i]] in before
  }

  lemma NoneNeeded(g: Graph, id: Id, before: seq<Id>)
    requires id in g.plugins
    ensures SatisfiedUpTo(g, id, 0, before)
  {
    assert NeedsMet(g, id, 0, before);
  }

  lemma OneMoreMet(g: Graph, id: Id, i: nat, before: seq<Id>, after: seq<Id>)
    requires id in g.plugins && i < |g.plugins[id].needs| && SatisfiedUpTo(g, id, i, before) && before <= after
    requires g.plugins[id].needs[i] in g.providers && g.providers[g.plugins[id].needs[i]] in after
    ensures SatisfiedUpTo(g, id, i + 1, after)
  {
    assert NeedsMet(g, id, i, before);
    assert NeedsMet(g, id, i + 1, after);
  }

  lemma MetProvider(g: Graph, id: Id, i: nat, before: seq<Id>)
    requires id in g.plugins && i < |g.plugins[id].needs| && SatisfiedUpTo(g, id, |g.plugins[id].needs|, before)
    ensures g.plugins[id].needs[i] in g.providers && g.providers[g.plugins[id].needs[i]] in before
  {
    assert NeedsMet(g, id, |g.plugins[id].needs|, before);
  }

  lemma SatisfiedIs(g: Graph, id: Id, before: seq<Id>)
    requires id in g.plugins
    ensures SatisfiedUpTo(g, id, |g.plugins[id].needs|, before) <==> Satisfied(g, id, before)
  {
    assert NeedsMet(g, id, |g.plugins[id].needs|, before) <==> Satisfied(g, id, before);
  }

  lemma MissingReason(g: Graph, id: Id, i: nat)
    requires id in g.plugins && i < |g.plugins[id].needs| && g.plugins[id].needs[i] !in g.providers
    ensures Reason(g, CapabilityMissing)
  {
    assert !AllProvided(g, id);
    assert Explains(g, CapabilityMissing);
  }

  lemma NeedIsEdge(g: Graph, state: map<Id, Mark>, ordered: seq<Id>, stack: seq<Id>, id: Id, i: nat)
    requires Searching(g, state, ordered, stack)
    requires id in g.plugins && i < |g.plugins[id].needs| && g.plugins[id].needs[i] in g.providers
    ensures g.providers[g.plugins[id].needs[i]] in g.plugins && Edge(g, id, g.providers[g.plugins[id].needs[i]])
  {
    assert Search(g, state, ordered, stack);
    var c := g.plugins[id].needs[i];
    assert c in g.plugins[id].needs;
  }

  lemma StartSearch(g: Graph, state: map<Id, Mark>, ordered: seq<Id>, stack: seq<Id>, id: Id)
    requires Searching(g, state, ordered, stack) && id in g.plugins && id !in state
    requires stack != [] ==> Edge(g, stack[|stack| - 1], id)
    ensures Searching(g, state[id := InProgress], ordered, stack + [id]) && id !in stack
  {
    assert Search(g, state, ordered, stack);
    PathExtends(g, stack, id);
    assert forall x :: x in stack + [id] <==> x in stack || x == id;
  }

  lemma CardinalityMonotone(a: set<Id>, b: set<Id>)
    requires a <= b
    ensures |a| <= |b|
  {
    assert b == a + (b - a);
  }

  lemma FinishSearch(g: Graph, state: map<Id, Mark>, ordered: seq<Id>, stack: seq<Id>, id: Id)
    requires Searching(g, state, ordered, stack + [id]) && id in g.plugins && id !in stack
    requires Satisfied(g, id, ordered)
    ensures Searching(g, state[id := Finished], ordered + [id], stack)
  {
    var longer := ordered + [id];
    assert Search(g, state, ordered, stack + [id]);
    assert (stack + [id])[|stack|] == id;
    forall i | 0 <= i < |longer|
      ensures longer[i] in g.plugins && Satisfied(g, longer[i], longer[..i])
    {
      assert longer[..i] == if i < |ordered| then ordered[..i] else ordered;
    }
    assert forall x :: x in stack + [id] <==> x in stack || x == id;
    assert forall i | 0 <= i < |stack| :: stack[i] == (stack + [id])[i];
  }

  // ----------------------------------------------------------- the result

  ghost predicate Acyclic(g: Graph) {
    forall path :: !Cycle(g, path)
  }

  lemma {:induction false} PathDescends(g: Graph, order: seq<Id>, path: seq<Id>, k: nat) returns (i: nat, j: nat)
    requires ProvidersFirst(g, order) && Distinct(order) && Path(g, path) && 0 < k < |path| && path[0] in order
    ensures i < j < |order| && order[i] == path[k] && order[j] == path[0]
    decreases k
  {
    var m: nat;
    if k == 1 {
      j :| 0 <= j < |order| && order[j] == path[0];
      m := j;
    } else {
      m, j := PathDescends(g, order, path, k - 1);
    }
    assert Edge(g, path[k - 1], path[k - 1 + 1]);
    assert order[m] == path[k - 1] && Satisfied(g, order[m], order[..m]);
    assert path[k] in order[..m];
    i :| 0 <= i < m && order[..m][i] == path[k];
  }

  /** Providers first means that no cycle passes through the order. */
  lemma OrderBreaksCycles(g: Graph, order: seq<Id>, path: seq<Id>)
    requires ProvidersFirst(g, order) && Distinct(order) && Cycle(g, path)
    ensures path[0] !in order
  {
    if path[0] in order {
      var i, j := PathDescends(g, order, path, |path| - 1);
      assert false;
    }
  }

  /** The graph of the enabled plugins. */
  ghost predicate GraphOf(entries: seq<Entry>, g: Graph) {
    && Readable(entries)
    && (forall id :: id in g.plugins <==> id in ActiveIds(entries))
    && (forall i | 0 <= i < |entries| && entries[i].enabled == Some(true) ::
          entries[i].id in g.plugins && g.plugins[entries[i].id] == entries[i].decoded.value)
    && ProvidersOf(Provided(g.plugins, ActiveIds(entries)), |Provided(g.plugins, ActiveIds(entries))|, g.providers)
  }

  lemma {:induction false} OwnersKnown(plugins: map<Id, Plugin>, ids: seq<Id>)
    requires forall id | id in ids :: id in plugins
    ensures forall i | 0 <= i < |Provided(plugins, ids)| :: Provided(plugins, ids)[i].owner in ids
  {
    if ids != [] {
      OwnersKnown(plugins, ids[1..]);
      OwnedBy(plugins[ids[0]].offers, ids[0]);
    }
  }

  lemma {:induction false} OwnedBy(capabilities: seq<Capability>, id: Id)
    ensures forall i | 0 <= i < |ProvidedBy(capabilities, id)| :: ProvidedBy(capabilities, id)[i].owner == id
  {
    if capabilities != [] {
      OwnedBy(capabilities[1..], id);
    }
  }

  lemma ProvidersKnown(g: Graph, ids: seq<Id>)
    requires forall id :: id in g.plugins <==> id in ids
    requires ProvidersOf(Provided(g.plugins, ids), |Provided(g.plugins, ids)|, g.providers)
    ensures Known(g)
  {
    OwnersKnown(g.plugins, ids);
  }

  /** Every enabled plugin finds its requirements, and none needs itself, even
      through others. */
  ghost predicate Resolvable(g: Graph) {
    (forall id | id in g.plugins :: AllProvided(g, id)) && Acyclic(g)
  }

  /** An order of all plugins with providers first settles both. */
  lemma OrderedIsResolvable(g: Graph, order: seq<Id>)
    requires ProvidersFirst(g, order) && Distinct(order) && forall id | id in g.plugins :: id in order
    ensures Resolvable(g)
  {
    forall id | id in g.plugins
      ensures AllProvided(g, id)
    {
      var i :| 0 <= i < |order| && order[i] == id;
      assert Satisfied(g, order[i], order[..i]);
    }
    forall path
      ensures !Cycle(g, path)
    {
      if Cycle(g, path) {
        assert Edge(g, path[0], path[0 + 1]);
        OrderBreaksCycles(g, order, path);
        assert false;
      }
    }
  }

  lemma ReasonRefutes(g: Graph, error: ConfigError)
    requires Reason(g, error)
    ensures !Resolvable(g)
  {
    assert Explains(g, error);
  }

  /** The search from every enabled plugin, in config order. */
  method Resolve(g: Graph, roots: seq<Id>) returns (r: Result<seq<Id>, ConfigError>)
    requires Known(g) && Distinct(roots) && forall id :: id in g.plugins <==> id in roots
    ensures r.Ok? <==> Resolvable(g)
    ensures r.Ok? ==> Distinct(r.value) && ProvidersFirst(g, r.value) && forall id :: id in r.value <==> id in roots
    ensures r.Ok? && ProvidersFirst(g, roots) ==> r.value == roots
  {
    var resolver := new Resolver(g);
    assert Search(g, resolver.state, resolver.ordered, []);
    for k := 0 to |roots|
      invariant Searching(g, resolver.state, resolver.ordered, []) && resolver.g == g && fresh(resolver)
      invariant forall i | 0 <= i < k :: roots[i] in resolver.ordered
      invariant ProvidersFirst(g, roots) ==> resolver.ordered == roots[..k]
    {
      ghost var before := resolver.ordered;
      if ProvidersFirst(g, roots) {
        NextInOrder(g, roots, k);
      }
      var visited := resolver.Visit(roots[k], []);
      if visited.Err? {
        ReasonRefutes(g, visited.error);
        return Err(visited.error);
      }
      assert roots[..k + 1] == roots[..k] + [roots[k]];
    }
    assert Search(g, resolver.state, resolver.ordered, []);
    assert roots[..|roots|] == roots;
    OrderedIsResolvable(g, resolver.ordered);
    return Ok(resolver.ordered);
  }

  lemma NextInOrder(g: Graph, roots: seq<Id>, k: nat)
    requires ProvidersFirst(g, roots) && Distinct(roots) && k < |roots|
    ensures roots[k] in g.plugins && roots[k] !in roots[..k]
    ensures SatisfiedUpTo(g, roots[k], |g.plugins[roots[k]].needs|, roots[..k])
  {
    SatisfiedIs(g, roots[k], roots[..k]);
  }

  /** The entries and their capabilities, before any ordering. */
  method BuildGraph(entries: seq<Entry>) returns (r: Result<Graph, ConfigError>)
    ensures r.Ok? ==> GraphOf(entries, r.value)
    ensures r.Err? ==> forall h :: !GraphOf(entries, h)
  {
    var read := ReadEntries(entries);
    if read.Err? {
      return Err(read.error);
    }
    var (plugins, active) := read.value;
    var enabled := map id | id in plugins && active[id] :: plugins[id];
    EnabledAreActive(entries, plugins, active);
    var found := FindProviders(Provided(enabled, ActiveIds(entries)));
    if found.Err? {
      forall h
        ensures !GraphOf(entries, h)
      {
        NoGraph(entries, h, enabled);
      }
      return Err(CapabilityTwice);
    }
    return Ok(Graph(enabled, found.value));
  }

  /** The entries can be loaded: they are readable, no capability of the
      enabled plugins is provided twice, every requirement of theirs is
      provided, and the dependency graph has no cycle. */
  ghost predicate Loads(entries: seq<Entry>) {
    exists g :: GraphOf(entries, g) && Resolvable(g)
  }

  /** decodePluginConfigs. It succeeds exactly when the entries can be loaded.
      The result is then a permutation of the enabled plugins with providers
      first, and is the config order itself when that already works. */
  method DecodePluginConfigs(entries: seq<Entry>) returns (r: Result<seq<Id>, ConfigError>, ghost g: Graph)
    ensures r.Ok? <==> Loads(entries)
    ensures r.Ok? ==> GraphOf(entries, g)
    ensures r.Ok? ==> Distinct(r.value) && ProvidersFirst(g, r.value) && forall id :: id in r.value <==> id in ActiveIds(entries)
    ensures r.Ok? && ProvidersFirst(g, ActiveIds(entries)) ==> r.value == ActiveIds(entries)
  {
    g := Graph(map[], map[]);
    var built := BuildGraph(entries);
    if built.Err? {
      return Err(built.error), g;
    }
    g := built.value;
    ActiveDistinct(entries);
    ProvidersKnown(g, ActiveIds(entries));
    r := Resolve(built.value, ActiveIds(entries));
    LoadsIs(entries, g);
  }

  lemma LoadsIs(entries: seq<Entry>, g: Graph)
    requires GraphOf(entries, g)
    ensures Loads(entries) <==> Resolvable(g)
  {
    forall h | GraphOf(entries, h)
      ensures h == g
    {
      OneGraph(entries, g, h);
    }
  }

  lemma SamePlugins(entries: seq<Entry>, g: Graph, plugins: map<Id, Plugin>)
    requires GraphOf(entries, g) && (forall id :: id in plugins <==> id in ActiveIds(entries))
    requires forall i | 0 <= i < |entries| && entries[i].enabled == Some(true) ::
               entries[i].id in plugins && plugins[entries[i].id] == entries[i].decoded.value
    ensures g.plugins == plugins
  {
    forall id | id in plugins
      ensures g.plugins[id] == plugins[id]
    {
      ActiveIn(entries, id);
    }
  }

  /** A capability provided twice: there is no graph. */
  lemma NoGraph(entries: seq<Entry>, h: Graph, plugins: map<Id, Plugin>)
    requires Readable(entries) && (forall id :: id in plugins <==> id in ActiveIds(entries))
    requires forall i | 0 <= i < |entries| && entries[i].enabled == Some(true) ::
               entries[i].id in plugins && plugins[entries[i].id] == entries[i].decoded.value
    requires !UniqueCapabilities(Provided(plugins, ActiveIds(entries)))
    ensures !GraphOf(entries, h)
  {
    if GraphOf(entries, h) {
      SamePlugins(entries, h, plugins);
    }
  }

  lemma OneGraph(entries: seq<Entry>, g: Graph, h: Graph)
    requires GraphOf(entries, g) && GraphOf(entries, h)
    ensures g == h
  {
    SamePlugins(entries, h, g.plugins);
    var all := Provided(g.plugins, ActiveIds(entries));
    forall c | c in g.providers || c in h.providers
      ensures c in g.providers && c in h.providers && g.providers[c] == h.providers[c]
    {
      var i :| 0 <= i < |all| && all[i].capability == c;
    }
    assert g.providers == h.providers;
  }

  lemma EnabledAreActive(entries: seq<Entry>, plugins: map<Id, Plugin>, active: map<Id, bool>)
    requires ReadUpTo(entries, |entries|, plugins, active)
    ensures forall id :: id in ActiveIds(entries) <==> id in plugins && active[id]
  {
    forall id
      ensures id in ActiveIds(entries) <==> id in plugins && active[id]
    {
      ActiveIn(entries, id);
    }
  }
}
