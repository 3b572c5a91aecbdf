# Query-tail planning and the DropTables plan node

This project models two pieces of the SQL engine's planner and proves
properties of them in Dafny.

1. **The tail of query planning** (`QueryPlanner`, `QueryPlannerProperties`).
   A query may start with a `WITH` clause of common table expressions (CTEs).
   A recursive `WITH` is rejected. Otherwise every CTE is handled in
   declaration order:
   - its name is normalised;
   - a name the planner context already holds is rejected;
   - its body is planned against a copy of the context, and its alias is applied;
   - that one name is registered in the context.

   Then the query body is planned. `ORDER BY` wraps it in a sort. `OFFSET`
   and `LIMIT` wrap the result in a limit. An absent offset means skip 0.
   An absent limit or `LIMIT NULL` means no bound. A negative `OFFSET`
   literal and a non-literal `OFFSET` are rejected with two different
   messages. A negative `LIMIT` literal and a non-literal `LIMIT` are both
   rejected with the one message "LIMIT must not be negative".

   The planner context is a class (`PlannerContext`) because the planner
   updates it in place. The CTE loop is a method with a loop invariant. It
   is proved equal to the specification `PlanQuery`/`RegisterCtes`/`PlanCte`,
   and the properties are lemmas about that specification. The SQL front
   end is left abstract: the identifier normaliser, expression planning,
   set-expression planning, alias application, sort-expression planning and
   plan schemas. These are the function-valued fields of `SqlQueryPlanner`,
   so every property holds whatever they compute.

2. **The `DropTables` extension node** (`DropTablesPlan`). This is a record
   of table references and an `IF EXISTS` flag. It has a conversion from its
   protobuf message, an encoder into the protobuf plan-extension message, a
   decoder from a DataFusion extension plan, and the methods every
   user-defined node provides. How one table reference is converted to and
   from protobuf is left abstract: a `NameCodec` holds the pair of
   conversions, and the round trips assume they are inverse.

## Model

| member | source | states |
|---|---|---|
| `QueryPlanner.QueryToPlan` | crates/datafusion_ext/src/planner/query.rs:31-35 | A query is planned in a new, empty context; the result is the specified plan of the query from no CTEs. |
| `QueryPlanner.QueryToPlanWithContext` | crates/datafusion_ext/src/planner/query.rs:37-43 | Delegates to the schema-aware planner: result and new context are those of the specification. |
| `QueryPlanner.QueryToPlanWithSchema` | crates/datafusion_ext/src/planner/query.rs:49-88 | The CTE loop and the body/sort/limit pipeline: the returned plan or error and the context left behind (including the CTEs registered before an early error) equal the specification `PlanQuery` of the old context. |
| `QueryPlanner.PlannerContext.constructor` | crates/datafusion_ext/src/planner/query.rs:33 | A new planner context holds no CTEs. |
| `QueryPlanner.PlannerContext.Clone` | crates/datafusion_ext/src/planner/query.rs:75 | The copy a CTE body is planned against holds the same CTEs as the outer context. |
| `QueryPlanner.PlannerContext.InsertCte` | crates/datafusion_ext/src/planner/query.rs:82 | Registering a CTE maps its name to its plan and changes nothing else. |
| `QueryPlanner.PlannerContext.ContainsCte` | crates/datafusion_ext/src/planner/query.rs:67 | `contains_cte`: whether the context holds the name. It has no contract of its own; the duplicate error it leads to is stated by `PlanCte` and `RepeatedCteNameMessage`. |
| `QueryPlanner.PlanQuery` | crates/datafusion_ext/src/planner/query.rs:49-88 | The specification of `query_to_plan_with_schema`: the plan or error, and the CTEs left in the context. It has no contract of its own; `QueryToPlanWithSchema` is proved equal to it, and `RecursiveWithRejected`, `PlanQueryContext` and `RepeatedCteNameMessage` state its properties. |
| `QueryPlanner.RegisterCtes` | crates/datafusion_ext/src/planner/query.rs:64-83 | The specification of the CTE loop from one index on, stopping at the first failing CTE. It has no contract of its own; it is the loop invariant of `QueryToPlanWithSchema`, and `RegisterCtesKeepsContext`, `RegisterCtesSuccess`, `RegisterCtesDistinctNames` and `RegistrationInDeclarationOrder` state its properties. |
| `QueryPlanner.PlanTail` | crates/datafusion_ext/src/planner/query.rs:85-87 | The body, then the ORDER BY, then the OFFSET/LIMIT: an error planning the body is the result; with none of the three clauses the result is the body's plan; with OFFSET or LIMIT a successful plan is a Limit node, and with only ORDER BY a Sort node. |
| `QueryPlanner.PlanCte` | crates/datafusion_ext/src/planner/query.rs:64-83 | One iteration: a name already in the context gives the "specified more than once" error; on success the name was new and exactly that one name is added, with all earlier entries unchanged. |
| `QueryPlanner.ResolveSkip` | crates/datafusion_ext/src/planner/query.rs:101-119 | Absent OFFSET gives skip 0; otherwise success iff the planned expression is an Int64 literal >= 0, which is the skip; a negative literal gives "Offset must be >= 0, '<s>' was provided."; any other expression gives "Unexpected expression in OFFSET clause"; planning errors pass through. |
| `QueryPlanner.ResolveFetch` | crates/datafusion_ext/src/planner/query.rs:121-135 | Absent LIMIT or LIMIT NULL gives no bound; otherwise success iff the planned expression is an Int64 literal >= 0, which is the bound; anything else gives "LIMIT must not be negative"; planning errors pass through. |
| `QueryPlanner.PlanLimit` | crates/datafusion_ext/src/planner/query.rs:90-138 | With neither OFFSET nor LIMIT the input passes through unchanged; otherwise success iff both resolve, the result is one Limit node over the input, and an OFFSET error takes precedence over a LIMIT error. |
| `QueryPlanner.PlanOrderBy` | crates/datafusion_ext/src/planner/query.rs:140-155 | An empty ORDER BY passes the plan through; a non-empty one succeeds iff its sort expressions plan, and then wraps the plan in one Sort node; their error passes through. |
| `QueryPlannerProperties.RecursiveWithRejected` | crates/datafusion_ext/src/planner/query.rs:55-62 | A WITH RECURSIVE query fails with "Recursive CTEs are not supported" and leaves the context unchanged, before any CTE is planned. |
| `QueryPlannerProperties.PlanCteSucceeds` | crates/datafusion_ext/src/planner/query.rs:64-83 | One iteration succeeds iff the name is new to the context, the body plans against the context's copy, and the alias applies; the name is then bound to the aliased plan. |
| `QueryPlannerProperties.RegisterCtesKeepsContext` | crates/datafusion_ext/src/planner/query.rs:64-83 | Registering a WITH clause, whether it succeeds or fails, never changes or removes a CTE already in the context, and adds only names declared in that clause. |
| `QueryPlannerProperties.RegisterCtesSuccess` | crates/datafusion_ext/src/planner/query.rs:64-83 | A successful registration added every declared name, and none of them was in the context beforehand. |
| `QueryPlannerProperties.RegisterCtesDistinctNames` | crates/datafusion_ext/src/planner/query.rs:64-71 | The CTE names of a WITH clause that registers successfully are pairwise distinct. |
| `QueryPlannerProperties.DuplicateCteNamesRejected` | crates/datafusion_ext/src/planner/query.rs:65-71 | Two CTEs of one WITH clause with the same normalised name make planning fail. |
| `QueryPlannerProperties.CteShadowingContextRejected` | crates/datafusion_ext/src/planner/query.rs:66-71 | A CTE whose normalised name is already in the context makes planning fail. |
| `QueryPlannerProperties.RepeatedCteNameMessage` | crates/datafusion_ext/src/planner/query.rs:64-71 | When the first k CTEs register and the k-th name is already in the context or among the first k names, the whole query fails with "WITH query name ... specified more than once" naming it. |
| `QueryPlannerProperties.RegisterPrefixNames` | crates/datafusion_ext/src/planner/query.rs:64-83 | After the first k iterations succeed, the context holds the initial CTEs plus exactly the first k declared names. |
| `QueryPlannerProperties.RegistrationInDeclarationOrder` | crates/datafusion_ext/src/planner/query.rs:64-83 | After the first k CTEs, the context holds the initial CTEs plus exactly the first k names, and the remaining CTEs are planned from there; a failure among the first k is the failure of the whole registration. |
| `QueryPlannerProperties.PlanQueryContext` | crates/datafusion_ext/src/planner/query.rs:72-82 | Planning a query keeps every CTE of the context and adds only its own WITH clause's names, so CTEs of nested queries, planned against a copy, never leak out; on success all of its own names were added. |
| `QueryPlannerProperties.TailPassThrough` | crates/datafusion_ext/src/planner/query.rs:85-99 | With no ORDER BY, OFFSET or LIMIT the query's plan is the plan of its body. |
| `QueryPlannerProperties.LimitWrapsSort` | crates/datafusion_ext/src/planner/query.rs:85-87 | With an ORDER BY and an OFFSET or LIMIT, a successful plan is a Limit over a Sort over the body's plan: the limit wraps the sort, never the reverse. |
| `QueryPlannerProperties.LimitNullStillWraps` | crates/datafusion_ext/src/planner/query.rs:97-137 | LIMIT NULL without OFFSET is not a pass-through: it adds a Limit node with skip 0 and no bound. |
| `DropTablesPlan.ConvertNames` | crates/sqlexec/src/planner/logical_plan/drop_tables.rs:12-16 | Names are converted element-wise: success iff every name converts, and then same length and order; on failure the error is that of the first failing name, all before it having converted. |
| `DropTablesPlan.TryFromProto` | crates/sqlexec/src/planner/logical_plan/drop_tables.rs:8-23 | Conversion from protobuf succeeds iff every name converts; it keeps if_exists and maps the names element-wise in order; otherwise it returns the first failing name's error. |
| `DropTablesPlan.EncodeNames` | crates/sqlexec/src/planner/logical_plan/drop_tables.rs:68-72 | Encoding the names gives one protobuf reference per name, in the same order. |
| `DropTablesPlan.TryEncode` | crates/sqlexec/src/planner/logical_plan/drop_tables.rs:66-89 | The encoded message is the DropTables extension variant, with the same if_exists and the names encoded in order. |
| `DropTablesPlan.TryDecodeExtension` | crates/sqlexec/src/planner/logical_plan/drop_tables.rs:57-64 | Decoding succeeds iff the extension's node is a DropTables, and then returns that node; otherwise the internal "unsupported extension" error. |
| `DropTablesPlan.ConvertEncodedNames` | crates/sqlexec/src/planner/logical_plan/drop_tables.rs:12-16 | If each reference converts back from its protobuf form, converting the encoded names gives the names back. |
| `DropTablesPlan.EncodeThenDecode` | crates/sqlexec/src/planner/logical_plan/drop_tables.rs:66-82 | Round trip: encoding a node and converting the DropTables message back gives an equal node. |
| `DropTablesPlan.DecodeThenEncode` | crates/sqlexec/src/planner/logical_plan/drop_tables.rs:8-23 | Reverse round trip: a message that converts is given back exactly by encoding the converted node, when encoding undoes the per-name conversion. |
| `DropTablesPlan.NodeIsLeaf` | crates/sqlexec/src/planner/logical_plan/drop_tables.rs:25-53 | The node is named "DropTables" and explains itself by that name; it has no inputs, no expressions and the empty schema; from_template ignores its arguments and returns the node. |

## Left out

- Access modes of external databases and tables, and write authorisation, live outside `query.rs` and `drop_tables.rs` and are not modelled.
- The SQL front end is abstract (the fields of `SqlQueryPlanner`): identifier normalisation, `sql_to_expr`, `set_expr_to_plan`, `apply_table_alias`, `order_by_to_sort_expr` and plan schemas.
- `set_expr_to_plan` and `order_by_to_sort_expr` receive the planner context mutably. The model passes them the CTE map by value, so it assumes they register no CTEs themselves.
- The planner context's other state is not modelled: the outer query schema and the prepared-statement parameter types. The fresh context given to `sql_to_expr` for OFFSET and LIMIT is modelled as an empty CTE map.
- `LogicalPlanBuilder`'s `limit`, `sort` and `build` are modelled as building one `Limit` or `Sort` node, and never fail. The builder's rewriting of a sort on columns missing from the input is not modelled.
- The duplicate-name message quotes the name. The escaping that Rust's `{:?}` formatting applies to special characters is not modelled.
- `s as usize` and `n as usize`: a non-negative Int64 fits a 64-bit `usize`, so skip and fetch are `nat`. Targets with a narrower `usize` are not modelled.
- async execution and `#[async_recursion]` are not modelled.
- The planner's own state (`&mut self`) is not modelled. The model assumes the fields of `SqlQueryPlanner` are pure functions of their explicit arguments: the planner's state does not change their results from one call to the next, and calling them does not change that state.
- The protobuf byte encoding (`encode(buf)`) and its error path are not modelled. Encoding into a growable vector does not run out of space. `TryEncode` returns the message handed to the encoder.
- The conversions between `OwnedTableReference` and its protobuf message are not modelled: they are the `NameCodec` pair, and the round trips assume they are inverse.
- Replication (the raft client and the cluster test), the accord node, the in-process metastore server and the iceberg table functions are other parts of the system and are not modelled.
