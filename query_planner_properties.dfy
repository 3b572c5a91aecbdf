/** What the query planner promises about WITH clauses and the order of sort
    and limit, proved of the specification in `QueryPlanner` (and so of the
    methods that implement it). */
module QueryPlannerProperties {
  import opened Results
  import opened QueryPlanner

  /** The normalised names of the CTEs of `q`'s WITH clause from index `i`
      on. */
  function NamesFrom(planner: SqlQueryPlanner, q: Query, i: nat): set<string>
    requires q.withClause.Some? && i <= |q.withClause.value.cteTables|
    decreases |q.withClause.value.cteTables| - i
  {
    if i == |q.withClause.value.cteTables| then {} else {CteName(planner, q, i)} + NamesFrom(planner, q, i + 1)
  }

  /** The normalised names of the first `k` CTEs of `q`'s WITH clause. */
  function NamesBefore(planner: SqlQueryPlanner, q: Query, k: nat): set<string>
    requires q.withClause.Some? && k <= |q.withClause.value.cteTables|
  {
    if k == 0 then {} else NamesBefore(planner, q, k - 1) + {CteName(planner, q, k - 1)}
  }

  /** The CTEs registered by the first `k` iterations of the loop, each one
      planned against the context left by those before it. */
  function RegisterPrefix(planner: SqlQueryPlanner, q: Query, k: nat, ctes: CteMap): Result<CteMap, DataFusionError>
    requires q.withClause.Some? && k <= |q.withClause.value.cteTables|
  {
    if k == 0 then
      Ok(ctes)
    else
      match RegisterPrefix(planner, q, k - 1, ctes)
      case Err(e) => Err(e)
      case Ok(m) => PlanCte(planner, q, k - 1, m)
  }

  /** A recursive WITH is rejected before any CTE is planned, and the context
      is left as it was. */
  lemma RecursiveWithRejected(planner: SqlQueryPlanner, q: Query, ctes: CteMap)
    requires q.withClause.Some? && q.withClause.value.recursive
    ensures PlanQuery(planner, q, ctes) == PlanOutcome(Err(NotImplemented(RecursiveCteMessage)), ctes)
  {
  }

  /** One iteration succeeds exactly when the name is new to the context,
      the body plans against (a copy of) the context and the alias applies;
      the name is then bound to the aliased plan. */
  lemma PlanCteSucceeds(planner: SqlQueryPlanner, q: Query, i: nat, ctes: CteMap)
    requires HasCte(q, i)
    ensures var cte := q.withClause.value.cteTables[i];
            var body := PlanQuery(planner, cte.query, ctes).result;
            var r := PlanCte(planner, q, i, ctes);
            && (r.Ok? <==> CteName(planner, q, i) !in ctes && body.Ok?
                           && planner.applyTableAlias(body.value, cte.alias).Ok?)
            && (r.Ok? ==> r.value[CteName(planner, q, i)] == planner.applyTableAlias(body.value, cte.alias).value)
  {
  }

  /** Registration never changes nor removes a CTE already in the context,
      and adds only names declared in this WITH clause. */
  lemma {:induction false} RegisterCtesKeepsContext(planner: SqlQueryPlanner, q: Query, i: nat, ctes: CteMap)
    requires q.withClause.Some? && i <= |q.withClause.value.cteTables|
    ensures var reg := RegisterCtes(planner, q, i, ctes);
            && (forall x :: x in ctes ==> x in reg.ctes && reg.ctes[x] == ctes[x])
            && reg.ctes.Keys <= ctes.Keys + NamesFrom(planner, q, i)
    decreases |q.withClause.value.cteTables| - i
  {
    if i < |q.withClause.value.cteTables| {
      var step := RegisterCtesUnfold(planner, q, i, ctes);
      if step.Ok? {
        RegisterCtesKeepsContext(planner, q, i + 1, step.value);
      }
    }
  }

  /** A registration that succeeds has added every declared name, and the
      declared names were new to the context. */
  lemma {:induction false} RegisterCtesSuccess(planner: SqlQueryPlanner, q: Query, i: nat, ctes: CteMap)
    requires q.withClause.Some? && i <= |q.withClause.value.cteTables|
    requires RegisterCtes(planner, q, i, ctes).failure.None?
    ensures RegisterCtes(planner, q, i, ctes).ctes.Keys == ctes.Keys + NamesFrom(planner, q, i)
    ensures forall k :: i <= k < |q.withClause.value.cteTables| ==> CteName(planner, q, k) !in ctes
    decreases |q.withClause.value.cteTables| - i
  {
    if i < |q.withClause.value.cteTables| {
      var next := RegisterCtesStep(planner, q, i, ctes);
      RegisterCtesSuccess(planner, q, i + 1, next);
      forall k | i < k < |q.withClause.value.cteTables|
        ensures CteName(planner, q, k) !in ctes
      {
        assert CteName(planner, q, k) !in next;
      }
    }
  }

  /** The CTE names of a WITH clause that registers successfully are pairwise
      distinct. */
  lemma {:induction false} RegisterCtesDistinctNames(planner: SqlQueryPlanner, q: Query, i: nat, ctes: CteMap)
    requires q.withClause.Some? && i <= |q.withClause.value.cteTables|
    requires RegisterCtes(planner, q, i, ctes).failure.None?
    ensures forall j, k :: i <= j < k < |q.withClause.value.cteTables| ==> CteName(planner, q, j) != CteName(planner, q, k)
    decreases |q.withClause.value.cteTables| - i
  {
    if i < |q.withClause.value.cteTables| {
      var next := RegisterCtesStep(planner, q, i, ctes);
      RegisterCtesDistinctNames(planner, q, i + 1, next);
      RegisterCtesSuccess(planner, q, i + 1, next);
    }
  }

  /** One successful iteration inside a successful registration. */
  lemma RegisterCtesStep(planner: SqlQueryPlanner, q: Query, i: nat, ctes: CteMap) returns (next: CteMap)
    requires q.withClause.Some? && i < |q.withClause.value.cteTables|
    requires RegisterCtes(planner, q, i, ctes).failure.None?
    ensures PlanCte(planner, q, i, ctes) == Ok(next)
    ensures RegisterCtes(planner, q, i, ctes) == RegisterCtes(planner, q, i + 1, next)
    ensures CteName(planner, q, i) !in ctes && next.Keys == ctes.Keys + {CteName(planner, q, i)}
  {
    next := PlanCte(planner, q, i, ctes).value;
  }

  /** One iteration of the registration, whatever its outcome. */
  lemma RegisterCtesUnfold(planner: SqlQueryPlanner, q: Query, i: nat, ctes: CteMap) returns (step: Result<CteMap, DataFusionError>)
    requires q.withClause.Some? && i < |q.withClause.value.cteTables|
    ensures step == PlanCte(planner, q, i, ctes)
    ensures step.Err? ==> RegisterCtes(planner, q, i, ctes) == CteRegistration(ctes, Some(step.error))
    ensures step.Ok? ==> && RegisterCtes(planner, q, i, ctes) == RegisterCtes(planner, q, i + 1, step.value)
                         && step.value.Keys == ctes.Keys + {CteName(planner, q, i)}
  {
    step := PlanCte(planner, q, i, ctes);
  }

  /** Two CTEs of one WITH clause with the same normalised name are never both
      registered: planning the query fails. */
  lemma DuplicateCteNamesRejected(planner: SqlQueryPlanner, q: Query, ctes: CteMap, j: nat, k: nat)
    requires q.withClause.Some? && j < k < |q.withClause.value.cteTables|
    requires CteName(planner, q, j) == CteName(planner, q, k)
    ensures PlanQuery(planner, q, ctes).result.Err?
  {
    if !q.withClause.value.recursive && RegisterCtes(planner, q, 0, ctes).failure.None? {
      RegisterCtesDistinctNames(planner, q, 0, ctes);
      assert false;
    }
  }

  /** A CTE whose normalised name is already in the context (registered by an
      enclosing query) is rejected: planning the query fails. */
  lemma CteShadowingContextRejected(planner: SqlQueryPlanner, q: Query, ctes: CteMap, k: nat)
    requires q.withClause.Some? && k < |q.withClause.value.cteTables|
    requires CteName(planner, q, k) in ctes
    ensures PlanQuery(planner, q, ctes).result.Err?
  {
    if !q.withClause.value.recursive && RegisterCtes(planner, q, 0, ctes).failure.None? {
      RegisterCtesSuccess(planner, q, 0, ctes);
      assert false;
    }
  }

  /** The CTE loop meets the `k`-th name already registered, by the context
      or by an earlier CTE of the same clause, after the first `k` CTEs were
      registered: the query fails with the "specified more than once" error
      naming it. */
  lemma RepeatedCteNameMessage(planner: SqlQueryPlanner, q: Query, ctes: CteMap, k: nat)
    requires q.withClause.Some? && !q.withClause.value.recursive && k < |q.withClause.value.cteTables|
    requires RegisterPrefix(planner, q, k, ctes).Ok?
    requires CteName(planner, q, k) in ctes.Keys + NamesBefore(planner, q, k)
    ensures PlanQuery(planner, q, ctes).result == Err(SqlParser(DuplicateCteMessage(CteName(planner, q, k))))
  {
    RegistrationInDeclarationOrder(planner, q, k, ctes);
    var step := RegisterCtesUnfold(planner, q, k, RegisterPrefix(planner, q, k, ctes).value);
  }

  /** After the first `k` iterations the context holds the initial CTEs
      plus exactly the first `k` declared names. */
  lemma {:induction false} RegisterPrefixNames(planner: SqlQueryPlanner, q: Query, k: nat, ctes: CteMap)
    requires q.withClause.Some? && k <= |q.withClause.value.cteTables|
    requires RegisterPrefix(planner, q, k, ctes).Ok?
    ensures RegisterPrefix(planner, q, k, ctes).value.Keys == ctes.Keys + NamesBefore(planner, q, k)
  {
    if k > 0 {
      var prev := RegisterPrefix(planner, q, k - 1, ctes);
      assert prev.Ok?;
      RegisterPrefixNames(planner, q, k - 1, ctes);
      var step := RegisterCtesUnfold(planner, q, k - 1, prev.value);
      assert RegisterPrefix(planner, q, k, ctes) == step;
    }
  }

  /** CTEs are registered in declaration order: when the first `k` have been
      registered, the context holds the initial CTEs plus exactly the first
      `k` names, and the rest of the WITH clause is planned from there; a
      failure among the first `k` is the failure of the whole registration. */
  lemma {:induction false} RegistrationInDeclarationOrder(planner: SqlQueryPlanner, q: Query, k: nat, ctes: CteMap)
    requires q.withClause.Some? && k <= |q.withClause.value.cteTables|
    ensures var prefix := RegisterPrefix(planner, q, k, ctes);
            && (prefix.Ok? ==>
                  && prefix.value.Keys == ctes.Keys + NamesBefore(planner, q, k)
                  && RegisterCtes(planner, q, 0, ctes) == RegisterCtes(planner, q, k, prefix.value))
            && (prefix.Err? ==> RegisterCtes(planner, q, 0, ctes).failure == Some(prefix.error))
  {
    if RegisterPrefix(planner, q, k, ctes).Ok? {
      RegisterPrefixNames(planner, q, k, ctes);
    }
    if k > 0 {
      RegistrationInDeclarationOrder(planner, q, k - 1, ctes);
      var prev := RegisterPrefix(planner, q, k - 1, ctes);
      if prev.Ok? {
        var step := RegisterCtesUnfold(planner, q, k - 1, prev.value);
        assert RegisterPrefix(planner, q, k, ctes) == step;
      }
    }
  }

  /** Planning a query leaves in the context every CTE that was there, and
      adds only the CTEs of the query's own WITH clause: those of nested
      queries are planned against a copy and never leak out. On success all
      of its own CTEs have been added. */
  lemma PlanQueryContext(planner: SqlQueryPlanner, q: Query, ctes: CteMap)
    ensures var out := PlanQuery(planner, q, ctes);
            var own := if q.withClause.Some? && !q.withClause.value.recursive
                       then NamesFrom(planner, q, 0) else {};
            && (forall x :: x in ctes ==> x in out.ctes && out.ctes[x] == ctes[x])
            && out.ctes.Keys <= ctes.Keys + own
            && (out.result.Ok? ==> out.ctes.Keys == ctes.Keys + own)
  {
    if q.withClause.Some? && !q.withClause.value.recursive {
      RegisterCtesKeepsContext(planner, q, 0, ctes);
      if RegisterCtes(planner, q, 0, ctes).failure.None? {
        RegisterCtesSuccess(planner, q, 0, ctes);
      }
    }
  }

  /** With no ORDER BY, OFFSET or LIMIT the query's plan is the plan of its
      body. */
  lemma TailPassThrough(planner: SqlQueryPlanner, q: Query, ctes: CteMap)
    requires q.orderBy == [] && q.offset.None? && q.limit.None?
    ensures PlanTail(planner, q, ctes) == planner.setExprToPlan(q.body, ctes)
  {
  }

  /** The limit wraps the sort, never the reverse: with an ORDER BY and an
      OFFSET or LIMIT, a successful plan is a `Limit` over a `Sort` over the
      plan of the body. */
  lemma LimitWrapsSort(planner: SqlQueryPlanner, q: Query, ctes: CteMap)
    requires q.orderBy != [] && (q.offset.Some? || q.limit.Some?)
    requires PlanTail(planner, q, ctes).Ok?
    ensures var p := PlanTail(planner, q, ctes).value;
            && p.Limit? && p.input.Sort?
            && planner.setExprToPlan(q.body, ctes) == Ok(p.input.input)
  {
  }

  /** `LIMIT NULL` on its own still adds a `Limit` node, with skip 0 and no
      fetch bound: only a query with neither clause passes through. */
  lemma LimitNullStillWraps(planner: SqlQueryPlanner, input: LogicalPlan)
    ensures PlanLimit(planner, input, None, Some(SqlNull)) == Ok(Limit(0, None, input))
  {
  }
}
