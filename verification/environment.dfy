/** A graph with its observers, and all runs. */
module Environments {
  import opened Base
  import opened Semantics
  import opened Dependencies
  import opened NestedCache
  import opened NestedRefresh
  import opened Visiting
  import opened Expansion
  import opened Queries
  import opened Expressions
  import opened StartPositions
  import opened Observing
  import opened IncrementalState
  import opened SubgraphEvents
  import opened Incremental
  import opened Observers
  import opened Planning
  import opened PlannedPatterns
  import opened GraphStores

  datatype Operation =
    | ApplyUpdates(updates: seq<Update>)
    | ApplyChanges
    | CommitChanges
    | RollbackChanges
    | AddObserver(id: ObserverId, flags: Flags, expr: Expr)

  // What matters for the rest of a run: whether all updates are applied, whether no observed pattern has cached
  // operands that begin with a vertex, and which vertices were removed.
  datatype Progress = Progress(clean: bool, edgeFirst: bool, gone: set<VertexID>)

  ghost predicate RunOk(s: Progress, ops: seq<Operation>)
    decreases |ops|
  {
    ops == [] || (StepOk(s, ops[0]) && RunOk(ProgressAfter(s, ops[0]), ops[1..]))
  }

  // Observers are added when all updates are applied. With cached operands that begin with a vertex, no vertex is
  // added again after it was removed.
  ghost predicate StepOk(s: Progress, op: Operation) {
    (op.AddObserver? ==> s.clean && CanObserve(op.expr)) &&
    (op.ApplyUpdates? ==> s.edgeFirst || NoneAddedAgain(s.gone, op.updates))
  }

  ghost function ProgressAfter(s: Progress, op: Operation): Progress {
    Progress(
      if op.ApplyUpdates? then false else s.clean || !op.AddObserver?,
      s.edgeFirst && (op.AddObserver? ==> NestsOk(op.expr)),
      s.gone + if op.ApplyUpdates? then Removed(op.updates) else {})
  }

  ghost function Removed(us: seq<Update>): set<VertexID> { set u | u in us && u.RemoveVertex? :: u.from }

  ghost predicate NoneAddedAgain(gone: set<VertexID>, us: seq<Update>) {
    forall i :: 0 <= i < |us| && us[i].AddVertex? ==> us[i].from !in gone + Removed(us[..i])
  }

  // The pattern begins with a vertex that isn't a placeholder, or with an edge.
  ghost predicate CanObserve(e: Expr) { ValidExpr(e) && Shapes(e).Some? }

  // Vertices that were applied are present, or were removed; so are those that entries may be about. If entries may
  // begin with vertices, no present one was removed before, unless it's applied.
  ghost predicate Tracked(n: Levels, s: Scope, gone: set<VertexID>) {
    n.applied.vertices <= n.present.vertices + gone && s.known <= n.applied.vertices + gone &&
    (s.edgeFirst || n.present.vertices * gone <= n.applied.vertices)
  }

  // What the pattern means at all the positions of the graph.
  ghost function Found(g: Graph, e: Expr): set<Subgraph> {
    set sp, b | sp in PositionsOf(g) && b in MeaningAt(g, e, sp) :: Subgraph(sp, b)
  }

  ghost function PositionsOf(g: Graph): set<Position> {
    set v, kind | v in g.vertices && kind in {CORE, ORBIT} :: Position(v, kind)
  }

  // --------------------------------------------------------------------------
  // What operations do
  // --------------------------------------------------------------------------

  datatype Registered = Registered(expr: Expr, flags: Flags)

  // The graphs, and who observes what.
  datatype Overview = Overview(levels: Levels, observers: map<ObserverId, Registered>)

  ghost function Registrations(observers: map<ObserverId, Observer>): (m: map<ObserverId, Registered>)
    ensures m.Keys == observers.Keys
  {
    map id | id in observers :: Registered(observers[id].matcher.pattern.expr, observers[id].flags)
  }

  // When waiting updates are applied, exactly what is due to observers was reported: the difference between what their
  // patterns mean in the graph that was applied before, and what they mean now.
  ghost predicate Tells(s: Overview, reports: set<Report>) {
    forall r :: r in reports <==> r.id in s.observers && IsDueTo(s.observers[r.id], s.levels, r)
  }

  ghost predicate IsDueTo(o: Registered, n: Levels, r: Report) {
    IsDue(r, o.flags, Found(n.applied, o.expr), Found(n.present, o.expr))
  }

  // The batch has changed which vertices and edges are present.
  ghost predicate Changes(us: seq<Update>, g: Graph, h: Graph) {
    (forall v :: v in h.vertices <==> VertexStays(g.vertices, us, v)) &&
    forall e :: e in h.edges <==> EdgeStays(g, us, e)
  }

  ghost predicate StepsTo(a: Overview, op: Operation, reports: set<Report>, b: Overview) {
    match op
    case ApplyUpdates(us) =>
      reports == {} && b == a.(levels := a.levels.(present := b.levels.present)) &&
      Changes(us, a.levels.present, b.levels.present)
    case ApplyChanges =>
      Tells(a, reports) && b == a.(levels := a.levels.(applied := a.levels.present))
    case CommitChanges =>
      Tells(a, reports) && b == a.(levels := Levels(a.levels.present, a.levels.present,
          if reports == {} then a.levels.present else a.levels.committed))
    case RollbackChanges =>
      reports == {} && b == a.(levels := Levels(a.levels.committed, a.levels.committed, a.levels.committed))
    case AddObserver(id, flags, expr) =>
      reports == {} &&
      b == if id in a.observers then a else a.(observers := a.observers[id := Registered(expr, flags)])
  }

  // The operations lead from each overview to the next one, and report this.
  ghost predicate IsTrace(trace: seq<Overview>, ops: seq<Operation>, reports: seq<set<Report>>) {
    |trace| == |ops| + 1 && |reports| == |ops| &&
    forall i :: 0 <= i < |ops| ==> StepsTo(trace[i], ops[i], reports[i], trace[i + 1])
  }

  lemma TraceSnoc(trace: seq<Overview>, ops: seq<Operation>, reports: seq<set<Report>>, op: Operation,
      more: set<Report>, next: Overview)
    requires IsTrace(trace, ops, reports) && StepsTo(trace[|ops|], op, more, next)
    ensures IsTrace(trace + [next], ops + [op], reports + [more])
  {
    hide StepsTo;
    var t, os, rs, n := trace + [next], ops + [op], reports + [more], |ops|;
    forall i | 0 <= i < |os| ensures StepsTo(t[i], os[i], rs[i], t[i + 1]) {
      if i < n { assert StepsTo(trace[i], ops[i], reports[i], trace[i + 1]); }
    }
  }

  lemma StepIsDetermined(a: Overview, op: Operation, r: set<Report>, b: Overview, q: set<Report>, c: Overview)
    requires StepsTo(a, op, r, b) && StepsTo(a, op, q, c)
    ensures r == q && b == c
  {
    hide IsDueTo, VertexStays, EdgeStays;
    if op.ApplyUpdates? {
      assert b.levels.present.vertices == c.levels.present.vertices;
      assert b.levels.present.edges == c.levels.present.edges;
    }
    forall x ensures x in r <==> x in q {}
  }

  // Where a run leads to, and what it reports, is determined by where it begins.
  lemma {:induction false} TraceIsDetermined(a: seq<Overview>, ops: seq<Operation>, r: seq<set<Report>>,
      b: seq<Overview>, q: seq<set<Report>>, i: nat)
    requires IsTrace(a, ops, r) && IsTrace(b, ops, q) && a[0] == b[0] && i <= |ops|
    ensures a[i] == b[i] && r[..i] == q[..i]
    decreases i
  {
    hide StepsTo;
    if i > 0 {
      TraceIsDetermined(a, ops, r, b, q, i - 1);
      assert StepsTo(a[i - 1], ops[i - 1], r[i - 1], a[i - 1 + 1]);
      assert StepsTo(b[i - 1], ops[i - 1], q[i - 1], b[i - 1 + 1]);
      StepIsDetermined(a[i - 1], ops[i - 1], r[i - 1], a[i], q[i - 1], b[i]);
      assert r[..i] == r[..i - 1] + [r[i - 1]] && q[..i] == q[..i - 1] + [q[i - 1]];
    }
  }

  predicate Registers(op: Operation, id: ObserverId) { op.AddObserver? && op.id == id }

  // Observers are those that there were, and those that were added; who comes first keeps the id.
  lemma {:induction false} ObserversOfTrace(trace: seq<Overview>, ops: seq<Operation>, reports: seq<set<Report>>,
      id: ObserverId, n: nat)
    requires IsTrace(trace, ops, reports) && n <= |ops|
    ensures id in trace[n].observers <==>
      id in trace[0].observers || exists i :: 0 <= i < n && Registers(ops[i], id)
    ensures id in trace[0].observers ==> id in trace[n].observers && trace[n].observers[id] == trace[0].observers[id]
    ensures forall i ::
      0 <= i < n && Registers(ops[i], id) && id !in trace[0].observers &&
          (forall j :: 0 <= j < i ==> !Registers(ops[j], id)) ==>
        id in trace[n].observers && trace[n].observers[id] == Registered(ops[i].expr, ops[i].flags)
    decreases n
  {
    if n > 0 {
      ObserversOfTrace(trace, ops, reports, id, n - 1);
      var a, op, b := trace[n - 1], ops[n - 1], trace[n];
      assert StepsTo(a, op, reports[n - 1], trace[n - 1 + 1]);
      hide Tells, Changes;
      assert b.observers == if op.AddObserver? && op.id !in a.observers
        then a.observers[op.id := Registered(op.expr, op.flags)] else a.observers;
      hide StepsTo;
    }
  }

  // The step is a commit that nobody was told anything about.
  predicate Commits(op: Operation, reports: set<Report>) { op.CommitChanges? && reports == {} }

  // What is committed was present at the last commit that went through, whatever came after it.
  lemma {:induction false} CommittedOfTrace(trace: seq<Overview>, ops: seq<Operation>, reports: seq<set<Report>>,
      n: nat)
    requires IsTrace(trace, ops, reports) && n <= |ops|
    ensures (forall i :: 0 <= i < n ==> !Commits(ops[i], reports[i])) ==>
      trace[n].levels.committed == trace[0].levels.committed
    ensures forall i ::
      0 <= i < n && Commits(ops[i], reports[i]) && (forall j :: i < j < n ==> !Commits(ops[j], reports[j])) ==>
        trace[n].levels.committed == trace[i].levels.present
    decreases n
  {
    if n > 0 {
      CommittedOfTrace(trace, ops, reports, n - 1);
      assert StepsTo(trace[n - 1], ops[n - 1], reports[n - 1], trace[n - 1 + 1]);
      hide Tells, Changes;
      assert trace[n].levels.committed == if Commits(ops[n - 1], reports[n - 1])
        then trace[n - 1].levels.present else trace[n - 1].levels.committed;
      hide StepsTo;
    }
  }

  // The plan of the pattern finds what the pattern means.
  ghost predicate FindsMeaning(p: Pattern) {
    forall g: Graph, sp: Position :: ResultAt(g, p.plan, sp) == MeaningAt(g, p.expr, sp)
  }

  class Environment {
    const store: GraphStore
    const container: ObserverContainer
    ghost var gone: set<VertexID>

    constructor (orders: Orders)
      requires OrdersOk(orders)
      ensures Valid() && Seen() == Overview(Levels(EMPTY, EMPTY, EMPTY), map[])
      ensures fresh(Repr()) && Reached() == Progress(true, true, {})
    {
      hide ObserverContainer.UpToDateWith, ObserverContainer.Valid, GraphStore.Valid;
      container := new ObserverContainer(orders);
      store := new GraphStore();
      gone := {};
      new;
      assert container.UpToDateWith(EMPTY);
    }

    ghost function Repr(): set<object>
      reads container
    {
      store.Repr() + {this, container, container.registry} + container.Matchers()
    }

    // Observers are right about the applied graph, and were planned right.
    ghost predicate Valid()
      reads Repr()
    {
      store.Valid() && container.UpToDateWith(store.Now().applied) && AllFindMeaning() &&
      Tracked(store.Now(), container.registry.scope, gone)
    }

    ghost function Reached(): Progress
      reads Repr()
    {
      Progress(Clean(), container.registry.scope.edgeFirst, gone)
    }

    ghost function Seen(): Overview
      reads container, store.Repr()
    {
      Overview(store.Now(), Registrations(container.observers))
    }

    ghost predicate AllFindMeaning()
      reads container
    {
      forall id :: id in container.observers ==> FindsMeaning(container.observers[id].matcher.pattern)
    }

    // The container and the store have nothing in common.
    lemma Apart()
      ensures store.Repr() !! ({this, container, container.registry} + container.Matchers())
      ensures container.registry !in container.Matchers()
    {}

    ghost predicate Clean()
      reads Repr()
    {
      store.Now().present == store.Now().applied
    }

    method Update(us: seq<Update>)
      requires Valid() && (Reached().edgeFirst || NoneAddedAgain(gone, us))
      modifies store.Repr(), this`gone
      ensures Valid() && StepsTo(old(Seen()), ApplyUpdates(us), {}, Seen())
      ensures container.observers == old(container.observers)
      ensures gone == old(gone) + Removed(us) && container.registry.scope == old(container.registry.scope)
    {
      hide ObserverContainer.UpToDateWith, GraphStore.Valid, WellFormed;
      Apart();
      UpdatesAreTracked(store.Now(), container.registry.scope, gone, us);
      store.Update(us);
      gone := gone + Removed(us);
    }

    // Observers are told exactly what is due to them.
    method Apply() returns (reports: set<Report>)
      requires Valid()
      modifies Repr()
      ensures Valid() && Clean() && container.observers == old(container.observers)
      ensures StepsTo(old(Seen()), ApplyChanges, reports, Seen())
      ensures Reached() == old(Reached()).(clean := true)
    {
      hide ObserverContainer.UpToDateWith, ObserverContainer.MatchersOk, GraphStore.Valid, WellFormed, Found,
          Tracked, NoneReturns, FindsMeaning, Scoped, QueryOk, Tells, ReportsExactly, Registrations,
          KnowWhatIsFound;
      Apart();
      ghost var g, states, seen := store.Now().applied, container.States(), Seen();
      AppliedIsOk();
      NothingReturns(container.registry.State(), store.Now(), gone);
      ApplyIsTracked(store.Now(), container.registry.scope, gone);
      KnownIsFound();
      var changes := store.Apply();
      if changes == GraphChanges({}, {}, {}, {}) {
        NoDifference(g, store.Now().present);
        assert container.UpToDateWith(g);
        NothingToTell(seen);
        return {};
      }
      assert container.UpToDateWith(g) && container.States() == states;
      reports := Notify(changes, g);
      KnownIsFound();
      DueIsTold(seen.levels, container.observers, states, container.States(), reports);
    }

    // Observers are told about the changes that were applied.
    method Notify(changes: GraphChanges, ghost g: Graph) returns (reports: set<Report>)
      requires store.Valid() && container.UpToDateWith(g) && AllFindMeaning() && Clean()
      requires WellFormed(g) && changes == Difference(g, store.Now().present)
      requires NoneReturns(container.registry.State(), g, store.Now().present)
      requires Tracked(store.Now(), Widened(container.registry.scope, store.Now().present), gone)
      modifies container, container.registry, container.Matchers()
      ensures Valid() && Reached() == old(Reached()) && container.observers == old(container.observers)
      ensures store.Now() == old(store.Now())
      ensures ReportsExactly(container.observers, old(container.States()), container.States(), reports)
    {
      hide ObserverContainer.UpToDateWith, ObserverContainer.MatchersOk, GraphStore.Valid, WellFormed, ReportsExactly,
          Tracked, NoneReturns, FindsMeaning, Scoped, QueryOk;
      Apart();
      var query := store.Snapshot();
      reports := container.Observe(changes, query, g);
      assert store.Valid();
    }

    // Commits unless observers reported something, when their effects have to be committed too.
    method Commit() returns (done: bool, reports: set<Report>)
      requires Valid()
      modifies Repr()
      ensures Valid() && Clean() && container.observers == old(container.observers) && (done <==> reports == {})
      ensures StepsTo(old(Seen()), CommitChanges, reports, Seen())
      ensures Reached() == old(Reached()).(clean := true)
    {
      hide ObserverContainer.UpToDateWith, ObserverContainer.MatchersOk, GraphStore.Valid, WellFormed, Tells,
          QueryOk, AllFindMeaning;
      reports := Apply();
      done := reports == {};
      if done {
        Apart();
        store.Commit();
      }
    }

    method Rollback()
      requires Valid()
      modifies Repr()
      ensures Valid() && Clean() && container.observers == old(container.observers)
      ensures StepsTo(old(Seen()), RollbackChanges, {}, Seen())
      ensures Reached() == old(Reached()).(clean := true)
    {
      hide ObserverContainer.UpToDateWith, ObserverContainer.MatchersOk, GraphStore.Valid, WellFormed,
          NoneReturns, FindsMeaning, Scoped,
          QueryOk;
      Apart();
      UpToDateIsOk(store.Now().applied);
      store.Rollback();
      assert container.MatchersOk() && container.AllEdgeFirst();
      var query := store.Snapshot();
      container.ReinitializeAll(query);
      assert store.Valid();
    }

    // Plans the pattern, and registers its observer.
    method Observe(id: ObserverId, flags: Flags, expr: Expr) returns (ok: bool)
      requires Valid() && Clean() && CanObserve(expr)
      modifies container, container.registry
      ensures Valid() && Clean() && (ok <==> id !in old(container.observers))
      ensures container.observers.Keys == old(container.observers.Keys) + {id}
      ensures ok ==> container.observers[id].matcher.pattern.expr == expr && container.observers[id].flags == flags
      ensures forall k :: k in old(container.observers) ==> container.observers[k] == old(container.observers)[k]
      ensures StepsTo(old(Seen()), AddObserver(id, flags, expr), {}, Seen())
      ensures fresh(Repr() - old(Repr())) && gone == old(gone)
      ensures Reached().edgeFirst <==> old(Reached().edgeFirst) && NestsOk(expr)
    {
      hide ObserverContainer.UpToDateWith, ObserverContainer.MatchersOk, GraphStore.Valid, WellFormed,
          Tracked, NoneReturns, FindsMeaning, Scoped, QueryOk, PatternOk, Registrations;
      Apart();
      ghost var before := container.observers;
      var pattern := PlanFor(expr);
      Admit(expr);
      var query := store.Snapshot();
      assert container.UpToDateWith(query.graph);
      ok := container.Register(id, flags, pattern, query);
      assert store.Valid();
      if ok { OneMoreRegistered(before, container.observers, id, flags, expr); }
    }

    // The registry has to allow for what the pattern looks up.
    ghost method Admit(expr: Expr)
      requires Valid() && Clean()
      modifies container.registry`scope
      ensures Valid() && Clean() && container.registry.scope.edgeFirst ==
          (old(container.registry.scope.edgeFirst) && NestsOk(expr))
    {
      hide ObserverContainer.UpToDateWith, ObserverContainer.MatchersOk, GraphStore.Valid, FindsMeaning, Tracked;
      Apart();
      if !NestsOk(expr) {
        CleanIsTracked(store.Now(), container.registry.scope, gone);
        container.AllowVertexFirst(store.Now().applied);
      }
    }

    // In every run, all observers know exactly what their patterns mean in the applied graph, as if they were
    // matched from scratch, without planning and without caches. Each operation does and reports what it should.
    method Run(ops: seq<Operation>) returns (reports: seq<set<Report>>, ghost trace: seq<Overview>)
      requires Valid() && RunOk(Reached(), ops)
      modifies Repr()
      ensures Valid() && fresh(Repr() - old(Repr()))
      ensures IsTrace(trace, ops, reports) && trace[0] == old(Seen()) && trace[|ops|] == Seen()
      ensures forall id :: id in container.observers ==>
        AsMeant(container.observers[id].matcher.pattern.expr, container.observers[id].matcher.Now(),
            store.Now().applied)
    {
      hide Valid, RunOk, ObserverContainer.UpToDateWith, GraphStore.Valid, StepsTo, Seen;
      assert ops[0..] == ops;
      reports, trace := [], [Seen()];
      assert IsTrace(trace, ops[..0], reports);
      hide IsTrace;
      for i := 0 to |ops|
        invariant Valid() && RunOk(Reached(), ops[i..]) && fresh(Repr() - old(Repr()))
        invariant IsTrace(trace, ops[..i], reports) && |trace| == i + 1
        invariant trace[0] == old(Seen()) && trace[i] == Seen()
      {
        assert ops[i..][0] == ops[i] && ops[i..][1..] == ops[i + 1..];
        FirstIsOk(Reached(), ops[i..]);
        ghost var s := Reached();
        var more := Do(ops[i]);
        FurtherIsOk(ProgressAfter(s, ops[i]), Reached(), ops[i + 1..]);
        assert ops[..i + 1] == ops[..i] + [ops[i]];
        TraceSnoc(trace, ops[..i], reports, ops[i], more, Seen());
        reports, trace := reports + [more], trace + [Seen()];
      }
      assert ops[..|ops|] == ops;
      forall id | id in container.observers
        ensures AsMeant(container.observers[id].matcher.pattern.expr, container.observers[id].matcher.Now(),
            store.Now().applied)
      {
        ObserverIsRight(id);
      }
    }

    lemma KnownIsFound()
      requires Valid()
      ensures KnowWhatIsFound(container.observers, container.States(), store.Now().applied)
    {
      hide Found, AsMeant, MeaningAt;
      AppliedIsOk();
      forall id | id in container.observers
        ensures AllSubgraphs(container.States()[id].last) ==
            Found(store.Now().applied, container.observers[id].matcher.pattern.expr)
      {
        ObserverIsRight(id);
        MeantIsFound(container.observers[id].matcher.pattern.expr, container.observers[id].matcher.Now(),
            store.Now().applied);
      }
    }

    lemma ObserverIsRight(id: ObserverId)
      requires Valid() && id in container.observers
      ensures AsMeant(container.observers[id].matcher.pattern.expr, container.observers[id].matcher.Now(),
          store.Now().applied)
    {
      hide FindsMeaning, AsFromScratch;
      var m := container.observers[id].matcher;
      assert m.Valid() && KnowsAll(m, store.Now().applied, container.registry.scope) && FindsMeaning(m.pattern);
      RightIsFromScratch(m.pattern, m.Now(), store.Now().applied);
      FromScratchIsMeant(m.pattern, m.Now(), store.Now().applied);
    }

    lemma AppliedIsOk()
      requires Valid()
      ensures WellFormed(store.Now().applied) && Scoped(container.registry.State(), store.Now().applied)
    {}

    lemma UpToDateIsOk(g: Graph)
      requires container.UpToDateWith(g)
      ensures container.MatchersOk() && container.AllEdgeFirst()
    {
      forall id | id in container.observers && container.registry.scope.edgeFirst
        ensures NestsEdgeFirst(container.observers[id].matcher.pattern.plan)
      {
        assert KnowsAll(container.observers[id].matcher, g, container.registry.scope);
      }
    }

    method Do(op: Operation) returns (reports: set<Report>)
      requires Valid() && StepOk(Reached(), op)
      modifies Repr()
      ensures Valid() && fresh(Repr() - old(Repr())) && Further(ProgressAfter(old(Reached()), op), Reached())
      ensures StepsTo(old(Seen()), op, reports, Seen())
    {
      hide Valid, ObserverContainer.UpToDateWith, GraphStore.Valid, StepsTo, CanObserve;
      reports := {};
      match op
      case ApplyUpdates(us) => Update(us);
      case ApplyChanges => reports := Apply();
      case CommitChanges =>
        var done;
        done, reports := Commit();
      case RollbackChanges => Rollback();
      case AddObserver(id, flags, expr) =>
        var ok := Observe(id, flags, expr);
    }
  }

  method PlanFor(expr: Expr) returns (pattern: Pattern)
    requires CanObserve(expr)
    ensures pattern.expr == expr && PatternOk(pattern) && FindsMeaning(pattern)
    ensures NestsOk(expr) ==> NestsEdgeFirst(pattern.plan)
  {
    var plan := PlanPattern(expr, true);
    pattern := Pattern(expr, plan);
  }

  // Whatever may come after one of them may come after the other.
  ghost predicate Further(a: Progress, b: Progress) {
    (a.clean ==> b.clean) && (a.edgeFirst ==> b.edgeFirst) && b.gone <= a.gone
  }

  lemma {:induction false} FurtherIsOk(a: Progress, b: Progress, ops: seq<Operation>)
    requires RunOk(a, ops) && Further(a, b)
    ensures RunOk(b, ops)
    decreases |ops|
  {
    if ops != [] {
      FurtherIsOk(ProgressAfter(a, ops[0]), ProgressAfter(b, ops[0]), ops[1..]);
    }
  }

  // --------------------------------------------------------------------------
  // Vertices that were removed
  // --------------------------------------------------------------------------

  lemma {:induction false} UpdatedVertices(g: Graph, us: seq<Update>, gone: set<VertexID>)
    ensures g.vertices <= UpdatedAll(g, us).vertices + Removed(us)
    ensures NoneAddedAgain(gone, us) ==> UpdatedAll(g, us).vertices * (gone + Removed(us)) <= g.vertices * gone
    decreases |us|
  {
    if us != [] {
      var n := |us| - 1;
      var before := us[..n];
      UpdatedVertices(g, before, gone);
      assert us == before + [us[n]];
      assert Removed(us) == Removed(before) + if us[n].RemoveVertex? then {us[n].from} else {};
      if NoneAddedAgain(gone, us) {
        forall i | 0 <= i < n && before[i].AddVertex? ensures before[i].from !in gone + Removed(before[..i]) {
          assert us[i] == before[i] && us[..i] == before[..i];
        }
      }
    }
  }

  lemma UpdatesAreTracked(n: Levels, s: Scope, gone: set<VertexID>, us: seq<Update>)
    requires Tracked(n, s, gone) && (s.edgeFirst || NoneAddedAgain(gone, us))
    ensures Tracked(n.(present := UpdatedAll(n.present, us)), s, gone + Removed(us))
  {
    UpdatedVertices(n.present, us, gone);
  }

  lemma ApplyIsTracked(n: Levels, s: Scope, gone: set<VertexID>)
    requires Tracked(n, s, gone)
    ensures Tracked(n.(applied := n.present), Widened(s, n.present), gone)
    ensures n.applied == n.present ==> Tracked(n.(applied := n.present), s, gone)
  {}

  lemma CleanIsTracked(n: Levels, s: Scope, gone: set<VertexID>)
    requires Tracked(n, s, gone) && n.present == n.applied
    ensures Tracked(n, Scope(false, s.known), gone)
  {}

  // So applying the updates brings back no vertex that an entry started from while it was missing.
  lemma NothingReturns(c: Cache, n: Levels, gone: set<VertexID>)
    requires Scoped(c, n.applied) && Tracked(n, c.scope, gone)
    ensures NoneReturns(c, n.applied, n.present)
  {
    forall e | e in c.subgraphs && StartsHere(n.present, e) ensures StartsHere(n.applied, e) {
      assert InScope(c.scope, Nested(e), e.pos);
      if c.scope.edgeFirst { assert !Peeks(e.plan); }
    }
  }

  // The last subgraphs are the ones found by matching from all start positions anew.
  ghost predicate AsFromScratch(p: Pattern, st: State, g: Graph) {
    Shapes(p.expr).Some? &&
    forall starts: seq<Position> :: AllStartsIn(p, g, starts) ==>
        AllSubgraphs(st.last) == ResultsFrom(g, p.plan, Elems(starts))
  }

  ghost predicate AllStartsIn(p: Pattern, g: Graph, starts: seq<Position>)
    requires Shapes(p.expr).Some?
  {
    forall sp :: StartsAtSome(ShapesOf(p), g, sp) ==> sp in starts
  }

  lemma RightIsFromScratch(p: Pattern, st: State, g: Graph)
    requires PatternOk(p) && Coherent(p, st) && Right(p, st, g) && WellFormed(g)
    ensures AsFromScratch(p, st, g)
  {
    forall starts: seq<Position> | AllStartsIn(p, g, starts)
      ensures AllSubgraphs(st.last) == ResultsFrom(g, p.plan, Elems(starts))
    {
      forall s ensures s in AllSubgraphs(st.last) <==> s in ResultsFrom(g, p.plan, Elems(starts)) {
        InAll(st.last, s);
        assert RightAt(p, st, g, s.start);
        assert ResultAt(g, p.plan, s.start) != {} ==> StartsAtSome(ShapesOf(p), g, s.start);
      }
    }
  }

  // What the pattern means at the positions.
  ghost function MeaningFrom(g: Graph, e: Expr, sps: set<Position>): set<Subgraph> {
    set sp, b | sp in sps && b in MeaningAt(g, e, sp) :: Subgraph(sp, b)
  }

  // The last subgraphs are what the pattern means at all its start positions.
  ghost predicate AsMeant(e: Expr, st: State, g: Graph) {
    Shapes(e).Some? &&
    forall starts: seq<Position> :: AllStartsFor(e, g, starts) ==>
        AllSubgraphs(st.last) == MeaningFrom(g, e, Elems(starts))
  }

  ghost predicate AllStartsFor(e: Expr, g: Graph, starts: seq<Position>)
    requires Shapes(e).Some?
  {
    forall sp :: StartsAtSome(Shapes(e).value, g, sp) ==> sp in starts
  }

  // There are such lists: the positions of all vertices.
  lemma StartsCanBeListed(e: Expr, g: Graph) returns (starts: seq<Position>)
    requires WellFormed(g) && Shapes(e).Some?
    ensures AllStartsFor(e, g, starts) && Elems(starts) == PositionsOf(g)
  {
    starts := Listing(PositionsOf(g));
    forall sp | StartsAtSome(Shapes(e).value, g, sp) ensures sp in starts {
      assert sp.kind.CORE? || sp.kind.ORBIT?;
      assert sp.v in g.vertices;
      assert sp in Elems(starts);
    }
  }

  // So whatever led to it, what observers of a pattern know is determined by the graph.
  lemma KnowledgeIsDetermined(e: Expr, g: Graph, a: State, b: State)
    requires WellFormed(g) && AsMeant(e, a, g) && AsMeant(e, b, g)
    ensures AllSubgraphs(a.last) == AllSubgraphs(b.last)
  {
    var starts := StartsCanBeListed(e, g);
    assert AllStartsFor(e, g, starts);
  }

  lemma {:induction false} Listing<T>(s: set<T>) returns (list: seq<T>)
    ensures Elems(list) == s
  {
    if s == {} {
      list := [];
    } else {
      var x :| x in s;
      var rest := Listing(s - {x});
      list := rest + [x];
      ElemsSnoc(rest, x);
    }
  }

  lemma FromScratchIsMeant(p: Pattern, st: State, g: Graph)
    requires AsFromScratch(p, st, g) && FindsMeaning(p)
    ensures AsMeant(p.expr, st, g)
  {
    forall starts: seq<Position> | AllStartsFor(p.expr, g, starts)
      ensures AllSubgraphs(st.last) == MeaningFrom(g, p.expr, Elems(starts))
    {
      hide ResultAt, MeaningAt;
      assert AllStartsIn(p, g, starts);
      assert ResultsFrom(g, p.plan, Elems(starts)) == MeaningFrom(g, p.expr, Elems(starts)) by {
        forall sp ensures ResultAt(g, p.plan, sp) == MeaningAt(g, p.expr, sp) {}
      }
    }
  }

  lemma FirstIsOk(s: Progress, ops: seq<Operation>)
    requires RunOk(s, ops) && ops != []
    ensures StepOk(s, ops[0]) && RunOk(ProgressAfter(s, ops[0]), ops[1..])
  {}

  lemma MeantIsFound(e: Expr, st: State, g: Graph)
    requires WellFormed(g) && AsMeant(e, st, g)
    ensures AllSubgraphs(st.last) == Found(g, e)
  {
    hide MeaningAt;
    var starts := StartsCanBeListed(e, g);
    assert AllStartsFor(e, g, starts);
  }

  lemma OneMoreRegistered(before: map<ObserverId, Observer>, after: map<ObserverId, Observer>, id: ObserverId,
      flags: Flags, expr: Expr)
    requires id !in before && after.Keys == before.Keys + {id} && forall k :: k in before ==> after[k] == before[k]
    requires after[id].matcher.pattern.expr == expr && after[id].flags == flags
    ensures Registrations(after) == Registrations(before)[id := Registered(expr, flags)]
  {}

  // Where nothing has changed, nothing is due.
  lemma NothingToTell(s: Overview)
    requires s.levels.present == s.levels.applied
    ensures Tells(s, {})
  {
    hide Found, IsDue;
    forall r: Report | r.id in s.observers ensures !IsDueTo(s.observers[r.id], s.levels, r) {
      NothingIsDue(s.observers[r.id].flags, Found(s.levels.applied, s.observers[r.id].expr), r);
    }
  }

  // What observers know is what their patterns mean in the graph.
  ghost predicate KnowWhatIsFound(observers: map<ObserverId, Observer>, states: map<ObserverId, State>, g: Graph) {
    observers.Keys == states.Keys &&
    forall id :: id in observers ==> AllSubgraphs(states[id].last) == Found(g, observers[id].matcher.pattern.expr)
  }

  // So what is reported is the difference between what the patterns meant and what they mean.
  lemma DueIsTold(n: Levels, observers: map<ObserverId, Observer>, before: map<ObserverId, State>,
      after: map<ObserverId, State>, reports: set<Report>)
    requires ReportsExactly(observers, before, after, reports)
    requires KnowWhatIsFound(observers, before, n.applied) && KnowWhatIsFound(observers, after, n.present)
    ensures Tells(Overview(n, Registrations(observers)), reports)
  {
    hide Found, IsDue;
  }
}
