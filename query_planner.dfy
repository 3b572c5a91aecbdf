/** The tail of SQL query planning: registration of the common table
    expressions of a `WITH` clause, then planning of the query body, its
    `ORDER BY` and its `OFFSET`/`LIMIT`.

    The parser, the identifier normaliser, the expression and set-expression
    planners and the table-alias rewriting belong to the SQL front end and are
    not part of this model; they are the function-valued fields of
    `SqlQueryPlanner`, so every property below holds whatever they compute. */
module QueryPlanner {
  import opened Results

  // ---------------------------------------------------------------------
  // The SQL syntax tree of a query, as far as this planner looks into it
  // ---------------------------------------------------------------------

  /** An identifier with its optional quote character. */
  datatype Ident = Ident(value: string, quoteStyle: Option<char>)

  /** `name (col1, col2, ...)` of a CTE. */
  datatype TableAlias = TableAlias(name: Ident, columns: seq<Ident>)

  /** A SQL expression; only the `NULL` literal is told apart here. */
  datatype SqlExpr = SqlNull | SqlOther(text: string)

  datatype OffsetRows = NoRowsKeyword | Row | Rows

  /** `OFFSET <value> [ROW | ROWS]` */
  datatype SqlOffset = SqlOffset(value: SqlExpr, rows: OffsetRows)

  datatype OrderByExpr = OrderByExpr(expr: SqlExpr, asc: Option<bool>, nullsFirst: Option<bool>)

  /** The body of a query (a SELECT, a set operation, VALUES, ...). */
  datatype SetExpr = SetExpr(text: string)

  /** One `name AS (query)` entry of a WITH clause. */
  datatype Cte = Cte(alias: TableAlias, query: Query)

  datatype With = With(recursive: bool, cteTables: seq<Cte>)

  datatype Query = Query(
    withClause: Option<With>,
    body: SetExpr,
    orderBy: seq<OrderByExpr>,
    limit: Option<SqlExpr>,
    offset: Option<SqlOffset>)

  // ---------------------------------------------------------------------
  // Logical expressions, plans and errors
  // ---------------------------------------------------------------------

  type Int64 = x: int | -0x8000_0000_0000_0000 <= x < 0x8000_0000_0000_0000

  datatype ScalarValue = Int64Value(v: Option<Int64>) | OtherScalar(text: string)

  /** A planned (logical) expression. */
  datatype Expr = Literal(scalar: ScalarValue) | OtherExpr(text: string)

  /** The column names of a plan's output. */
  type Schema = seq<string>

  /** A logical plan. Plans built by the front end are `Relation`s; the two
      nodes this planner builds itself are `Sort` and `Limit`. Skip and fetch
      are `usize` in the source, hence `nat`. */
  datatype LogicalPlan =
    | Relation(description: string)
    | Sort(sortExprs: seq<Expr>, input: LogicalPlan)
    | Limit(skip: nat, fetch: Option<nat>, input: LogicalPlan)

  datatype DataFusionError =
    | NotImplemented(message: string)
    | SqlParser(message: string)
    | Plan(message: string)
    | Internal(message: string)

  /** The CTEs known to a planner context, by normalised name. */
  type CteMap = map<string, LogicalPlan>

  /** The front-end collaborators of the query planner. `sqlToExpr` and
      `orderByToSortExpr` also receive the CTEs of the planner context they are
      called with. */
  datatype SqlQueryPlanner = SqlQueryPlanner(
    normalize: Ident -> string,
    setExprToPlan: (SetExpr, CteMap) -> Result<LogicalPlan, DataFusionError>,
    applyTableAlias: (LogicalPlan, TableAlias) -> Result<LogicalPlan, DataFusionError>,
    sqlToExpr: (SqlExpr, Schema, CteMap) -> Result<Expr, DataFusionError>,
    orderByToSortExpr: (seq<OrderByExpr>, Schema, CteMap) -> Result<seq<Expr>, DataFusionError>,
    schemaOf: LogicalPlan -> Schema)

  // ---------------------------------------------------------------------
  // Error messages
  // ---------------------------------------------------------------------

  const RecursiveCteMessage: string := "Recursive CTEs are not supported"
  const UnexpectedOffsetMessage: string := "Unexpected expression in OFFSET clause"
  const NegativeLimitMessage: string := "LIMIT must not be negative"

  /** `{cte_name:?}` renders the name between double quotes. */
  function DuplicateCteMessage(name: string): string
  {
    "WITH query name \"" + name + "\" specified more than once"
  }

  function NegativeOffsetMessage(s: int): string
  {
    "Offset must be >= 0, '" + IntToString(s) + "' was provided."
  }

  function DigitChar(d: nat): char
    requires d < 10
  {
    "0123456789"[d]
  }

  function NatToString(n: nat): string
  {
    if n < 10 then [DigitChar(n)] else NatToString(n / 10) + [DigitChar(n % 10)]
  }

  function IntToString(i: int): string
  {
    if i < 0 then "-" + NatToString(-i) else NatToString(i)
  }

  // ---------------------------------------------------------------------
  // The planner context
  // ---------------------------------------------------------------------

  /** The part of the planner context this planner reads and writes: the CTEs
      registered so far. */
  class PlannerContext {
    var ctes: CteMap

    constructor ()
      ensures ctes == map[]
    {
      ctes := map[];
    }

    /** `planner_context.clone()`: an independent copy. */
    constructor Clone(other: PlannerContext)
      ensures ctes == other.ctes
    {
      ctes := other.ctes;
    }

    predicate ContainsCte(name: string)
      reads this
    {
      name in ctes
    }

    method InsertCte(name: string, plan: LogicalPlan)
      modifies this
      ensures ctes == old(ctes)[name := plan]
    {
      ctes := ctes[name := plan];
    }
  }

  // ---------------------------------------------------------------------
  // OFFSET, LIMIT and ORDER BY
  // ---------------------------------------------------------------------

  predicate IsInt64Literal(e: Expr)
  {
    e.Literal? && e.scalar.Int64Value? && e.scalar.v.Some?
  }

  /** The skip count of an OFFSET clause: absent means 0; otherwise the
      expression, planned in a fresh context, must be a non-negative Int64
      literal. */
  function ResolveSkip(planner: SqlQueryPlanner, schema: Schema, skip: Option<SqlOffset>): (r: Result<nat, DataFusionError>)
    ensures skip.None? ==> r == Ok(0)
    ensures skip.Some? ==>
      var e := planner.sqlToExpr(skip.value.value, schema, map[]);
      && (r.Ok? <==> e.Ok? && IsInt64Literal(e.value) && e.value.scalar.v.value >= 0)
      && (r.Ok? ==> e.value.scalar.v.value == r.value)
      && (e.Err? ==> r == Err(e.error))
      && (e.Ok? && IsInt64Literal(e.value) && e.value.scalar.v.value < 0 ==>
            r == Err(Plan(NegativeOffsetMessage(e.value.scalar.v.value))))
      && (e.Ok? && !IsInt64Literal(e.value) ==> r == Err(Plan(UnexpectedOffsetMessage)))
  {
    match skip
    case None => Ok(0)
    case Some(offset) =>
      match planner.sqlToExpr(offset.value, schema, map[])
      case Err(e) => Err(e)
      case Ok(Literal(Int64Value(Some(s)))) =>
        if s < 0 then Err(Plan(NegativeOffsetMessage(s))) else Ok(s)
      case Ok(_) => Err(Plan(UnexpectedOffsetMessage))
  }

  /** The fetch bound of a LIMIT clause: absent or `LIMIT NULL` means no
      bound; otherwise the expression, planned in a fresh context, must be a
      non-negative Int64 literal, and anything else is reported as a negative
      limit. */
  function ResolveFetch(planner: SqlQueryPlanner, schema: Schema, fetch: Option<SqlExpr>): (r: Result<Option<nat>, DataFusionError>)
    ensures fetch.None? || fetch == Some(SqlNull) ==> r == Ok(None)
    ensures fetch.Some? && fetch.value != SqlNull ==>
      var e := planner.sqlToExpr(fetch.value, schema, map[]);
      && (r.Ok? <==> e.Ok? && IsInt64Literal(e.value) && e.value.scalar.v.value >= 0)
      && (r.Ok? ==> r.value.Some? && e.value.scalar.v.value == r.value.value)
      && (e.Err? ==> r == Err(e.error))
      && (e.Ok? && !(IsInt64Literal(e.value) && e.value.scalar.v.value >= 0) ==>
            r == Err(Plan(NegativeLimitMessage)))
  {
    if fetch.None? || fetch.value == SqlNull then
      Ok(None)
    else
      match planner.sqlToExpr(fetch.value, schema, map[])
      case Err(e) => Err(e)
      case Ok(Literal(Int64Value(Some(n)))) =>
        if n >= 0 then Ok(Some(n)) else Err(Plan(NegativeLimitMessage))
      case Ok(_) => Err(Plan(NegativeLimitMessage))
  }

  /** `limit`: with neither OFFSET nor LIMIT the input passes through;
      otherwise the OFFSET is resolved first, then the LIMIT, and the input is
      wrapped in one `Limit` node. */
  function PlanLimit(planner: SqlQueryPlanner, input: LogicalPlan, skip: Option<SqlOffset>, fetch: Option<SqlExpr>): (r: Result<LogicalPlan, DataFusionError>)
    ensures skip.None? && fetch.None? ==> r == Ok(input)
    ensures !(skip.None? && fetch.None?) ==>
      var s := ResolveSkip(planner, planner.schemaOf(input), skip);
      var f := ResolveFetch(planner, planner.schemaOf(input), fetch);
      && (r.Ok? <==> s.Ok? && f.Ok?)
      && (r.Ok? ==> r.value == Limit(s.value, f.value, input))
      && (s.Err? ==> r == Err(s.error))
      && (s.Ok? && f.Err? ==> r == Err(f.error))
  {
    if skip.None? && fetch.None? then
      Ok(input)
    else
      var schema := planner.schemaOf(input);
      match ResolveSkip(planner, schema, skip)
      case Err(e) => Err(e)
      case Ok(s) =>
        match ResolveFetch(planner, schema, fetch)
        case Err(e) => Err(e)
        case Ok(f) => Ok(Limit(s, f, input))
  }

  /** `order_by`: an empty ORDER BY passes the plan through; otherwise the
      plan is wrapped in one `Sort` node over the planned sort expressions. */
  function PlanOrderBy(planner: SqlQueryPlanner, plan: LogicalPlan, orderBy: seq<OrderByExpr>, ctes: CteMap): (r: Result<LogicalPlan, DataFusionError>)
    ensures orderBy == [] ==> r == Ok(plan)
    ensures orderBy != [] ==>
      var sortExprs := planner.orderByToSortExpr(orderBy, planner.schemaOf(plan), ctes);
      && (r.Ok? <==> sortExprs.Ok?)
      && (r.Ok? ==> r.value == Sort(sortExprs.value, plan))
      && (sortExprs.Err? ==> r == Err(sortExprs.error))
  {
    if orderBy == [] then
      Ok(plan)
    else
      match planner.orderByToSortExpr(orderBy, planner.schemaOf(plan), ctes)
      case Err(e) => Err(e)
      case Ok(sortExprs) => Ok(Sort(sortExprs, plan))
  }

  /** The body, then the sort, then the limit, all against the CTEs
      registered by the query's WITH clause. */
  function PlanTail(planner: SqlQueryPlanner, q: Query, ctes: CteMap): (r: Result<LogicalPlan, DataFusionError>)
    ensures planner.setExprToPlan(q.body, ctes).Err? ==> r == Err(planner.setExprToPlan(q.body, ctes).error)
    ensures q.orderBy == [] && q.offset.None? && q.limit.None? ==> r == planner.setExprToPlan(q.body, ctes)
    ensures r.Ok? && (q.offset.Some? || q.limit.Some?) ==> r.value.Limit?
    ensures r.Ok? && q.orderBy != [] && q.offset.None? && q.limit.None? ==> r.value.Sort?
  {
    match planner.setExprToPlan(q.body, ctes)
    case Err(e) => Err(e)
    case Ok(base) =>
      match PlanOrderBy(planner, base, q.orderBy, ctes)
      case Err(e) => Err(e)
      case Ok(sorted) => PlanLimit(planner, sorted, q.offset, q.limit)
  }

  // ---------------------------------------------------------------------
  // Planning a query: the specification
  // ---------------------------------------------------------------------

  /** The plan of a query together with the CTEs of the context it was
      planned in, as that context is left afterwards. */
  datatype PlanOutcome = PlanOutcome(result: Result<LogicalPlan, DataFusionError>, ctes: CteMap)

  /** The CTEs after registering a WITH clause from some index on, and the
      error that stopped the registration, if any. */
  datatype CteRegistration = CteRegistration(ctes: CteMap, failure: Option<DataFusionError>)

  predicate HasCte(q: Query, i: nat)
  {
    q.withClause.Some? && i < |q.withClause.value.cteTables|
  }

  /** The normalised name of the `i`-th CTE of `q`'s WITH clause. */
  function CteName(planner: SqlQueryPlanner, q: Query, i: nat): string
    requires HasCte(q, i)
  {
    planner.normalize(q.withClause.value.cteTables[i].alias.name)
  }

  /** `query_to_plan_with_schema`, against a context holding `ctes`. */
  function PlanQuery(planner: SqlQueryPlanner, q: Query, ctes: CteMap): (r: PlanOutcome)
    decreases q, 3, 0
  {
    if q.withClause.Some? && q.withClause.value.recursive then
      PlanOutcome(Err(NotImplemented(RecursiveCteMessage)), ctes)
    else
      var registration :=
        if q.withClause.Some? then RegisterCtes(planner, q, 0, ctes) else CteRegistration(ctes, None);
      match registration.failure
      case Some(e) => PlanOutcome(Err(e), registration.ctes)
      case None => PlanOutcome(PlanTail(planner, q, registration.ctes), registration.ctes)
  }

  /** Registers the CTEs of `q`'s WITH clause from index `i` on, stopping at
      the first one that fails. */
  function RegisterCtes(planner: SqlQueryPlanner, q: Query, i: nat, ctes: CteMap): (r: CteRegistration)
    requires q.withClause.Some? && i <= |q.withClause.value.cteTables|
    decreases q, 2, |q.withClause.value.cteTables| - i
  {
    if i == |q.withClause.value.cteTables| then
      CteRegistration(ctes, None)
    else
      match PlanCte(planner, q, i, ctes)
      case Err(e) => CteRegistration(ctes, Some(e))
      case Ok(next) => RegisterCtes(planner, q, i + 1, next)
  }

  /** One iteration of the CTE loop: reject a name already known, plan the
      body against a copy of the context, apply the alias and register exactly
      that one name. */
  function PlanCte(planner: SqlQueryPlanner, q: Query, i: nat, ctes: CteMap): (r: Result<CteMap, DataFusionError>)
    requires HasCte(q, i)
    decreases q, 1, 0
    ensures
      var cte := q.withClause.value.cteTables[i];
      var name := CteName(planner, q, i);
      && (name in ctes ==> r == Err(SqlParser(DuplicateCteMessage(name))))
      && (r.Ok? ==> name !in ctes && r.value.Keys == ctes.Keys + {name}
                    && forall x :: x in ctes ==> r.value[x] == ctes[x])
  {
    var cte := q.withClause.value.cteTables[i];
    var name := CteName(planner, q, i);
    if name in ctes then
      Err(SqlParser(DuplicateCteMessage(name)))
    else
      assert cte in q.withClause.value.cteTables;
      match PlanQuery(planner, cte.query, ctes).result
      case Err(e) => Err(e)
      case Ok(body) =>
        match planner.applyTableAlias(body, cte.alias)
        case Err(e) => Err(e)
        case Ok(aliased) => Ok(ctes[name := aliased])
  }

  // ---------------------------------------------------------------------
  // Planning a query: the implementation
  // ---------------------------------------------------------------------

  /** `query_to_plan`: plans a query in a new, empty context. */
  method QueryToPlan(planner: SqlQueryPlanner, q: Query) returns (r: Result<LogicalPlan, DataFusionError>)
    ensures r == PlanQuery(planner, q, map[]).result
  {
    var ctx := new PlannerContext();
    r := QueryToPlanWithContext(planner, q, ctx);
  }

  /** `query_to_plan_with_context` */
  method QueryToPlanWithContext(planner: SqlQueryPlanner, q: Query, ctx: PlannerContext) returns (r: Result<LogicalPlan, DataFusionError>)
    modifies ctx
    decreases q, 1
    ensures PlanOutcome(r, ctx.ctes) == PlanQuery(planner, q, old(ctx.ctes))
  {
    r := QueryToPlanWithSchema(planner, q, ctx);
  }

  /** `query_to_plan_with_schema`: registers the CTEs of the WITH clause in
      `ctx`, one by one in declaration order, then plans body, sort and limit.
      An error returns at once and leaves the CTEs registered before it. */
  method QueryToPlanWithSchema(planner: SqlQueryPlanner, q: Query, ctx: PlannerContext) returns (r: Result<LogicalPlan, DataFusionError>)
    modifies ctx
    decreases q, 0
    ensures PlanOutcome(r, ctx.ctes) == PlanQuery(planner, q, old(ctx.ctes))
  {
    if q.withClause.Some? {
      var with := q.withClause.value;
      if with.recursive {
        return Err(NotImplemented(RecursiveCteMessage));
      }
      var i := 0;
      while i < |with.cteTables|
        invariant i <= |with.cteTables|
        invariant RegisterCtes(planner, q, i, ctx.ctes) == RegisterCtes(planner, q, 0, old(ctx.ctes))
      {
        var cte := with.cteTables[i];
        var name := planner.normalize(cte.alias.name);
        if ctx.ContainsCte(name) {
          return Err(SqlParser(DuplicateCteMessage(name)));
        }
        var copy := new PlannerContext.Clone(ctx);
        assert cte in with.cteTables;
        var body := QueryToPlanWithContext(planner, cte.query, copy);
        if body.Err? {
          return Err(body.error);
        }
        var aliased := planner.applyTableAlias(body.value, cte.alias);
        if aliased.Err? {
          return Err(aliased.error);
        }
        ctx.InsertCte(name, aliased.value);
        i := i + 1;
      }
    }
    var plan := planner.setExprToPlan(q.body, ctx.ctes);
    if plan.Err? {
      return Err(plan.error);
    }
    var sorted := PlanOrderBy(planner, plan.value, q.orderBy, ctx.ctes);
    if sorted.Err? {
      return Err(sorted.error);
    }
    r := PlanLimit(planner, sorted.value, q.offset, q.limit);
  }
}
