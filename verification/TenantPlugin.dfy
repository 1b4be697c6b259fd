/** The tenant context of an asynchronous flow, and the plugin's hooks, which change the
    query, the pipeline or the document they run on. */
module TenantPlugin {
  import opened Wrappers
  import opened Filters

  datatype Context = Context(tenantId: Option<string>, bypass: bool)

  /** What the plugin makes of the innermost context of a flow. */
  datatype Verdict = Unscoped | Scoped(t: string) | FailClosed

  function VerdictOf(stack: seq<Context>): Verdict {
    if stack == [] then FailClosed
    else
      var ctx := stack[|stack| - 1];
      if ctx.bypass then Unscoped
      else if ctx.tenantId.Some? && ctx.tenantId.value != "" then Scoped(ctx.tenantId.value)
      else FailClosed
  }

  /** It refuses exactly when no context was entered, or the innermost one names no tenant and
      does not bypass, and it scopes to the innermost context's tenant only. */
  lemma VerdictIff(stack: seq<Context>, t: string)
    ensures VerdictOf(stack) == FailClosed <==>
              stack == [] || (!stack[|stack| - 1].bypass && stack[|stack| - 1].tenantId in {None, Some("")})
    ensures VerdictOf(stack) == Unscoped <==> stack != [] && stack[|stack| - 1].bypass
    ensures VerdictOf(stack) == Scoped(t) <==>
              stack != [] && !stack[|stack| - 1].bypass && stack[|stack| - 1].tenantId == Some(t) != Some("")
  {
  }

  /** A callback to run under a context. It makes queries, and between them runs further
      callbacks under contexts of their own. */
  datatype Callback = Callback(ctx: Context, inner: seq<Callback>)

  /** The verdicts on the queries of a callback up to and after its k-th inner one, and on
      those of the inner ones, in order. No query is judged by any context but that of the
      callback that makes it. */
  function JudgedUpTo(cb: Callback, k: nat): seq<Verdict>
    requires k <= |cb.inner|
    decreases cb, k
  {
    if k == 0 then [VerdictOf([cb.ctx])]
    else JudgedUpTo(cb, k - 1) + JudgedUpTo(cb.inner[k - 1], |cb.inner[k - 1].inner|) + [VerdictOf([cb.ctx])]
  }

  /** The contexts one asynchronous flow has entered and not left. */
  class TenantContextStore {
    var stack: seq<Context>

    constructor ()
      ensures stack == []
    {
      stack := [];
    }

    function GetTenantId(): Option<string>
      reads this
    {
      if stack == [] then None else stack[|stack| - 1].tenantId
    }

    predicate IsBypassed()
      reads this
    {
      stack != [] && stack[|stack| - 1].bypass
    }

    /** The beginning of `run(context, callback)`: the innermost context decides. */
    method Enter(ctx: Context)
      modifies this
      ensures stack == old(stack) + [ctx]
      ensures VerdictOf(stack) == VerdictOf([ctx])
    {
      stack := stack + [ctx];
    }

    /** Its end: the enclosing context is back in force. */
    method Leave()
      requires stack != []
      modifies this
      ensures stack == old(stack)[..|old(stack)| - 1]
    {
      stack := stack[..|stack| - 1];
    }

    /** `run(context, callback)`: whatever contexts surround it, a callback and those it runs
        are each judged by their own, and the surrounding ones are back when it returns. */
    method Run(cb: Callback) returns (seen: seq<Verdict>)
      modifies this
      ensures stack == old(stack) && VerdictOf(stack) == VerdictOf(old(stack))
      ensures seen == JudgedUpTo(cb, |cb.inner|)
      // The first and the last query it sees are the callback's own.
      ensures seen != [] && seen[0] == seen[|seen| - 1] == VerdictOf([cb.ctx])
      decreases cb
    {
      Enter(cb.ctx);
      seen := [VerdictOf(stack)];
      for k := 0 to |cb.inner|
        invariant stack == old(stack) + [cb.ctx] && VerdictOf(stack) == VerdictOf([cb.ctx])
        invariant seen == JudgedUpTo(cb, k)
        invariant seen != [] && seen[0] == seen[|seen| - 1] == VerdictOf([cb.ctx])
      {
        var more := Run(cb.inner[k]);
        seen := seen + more + [VerdictOf(stack)];
      }
      Leave();
    }
  }

  // ---- Queries ----

  class Query {
    var filter: Filter

    constructor (filter: Filter)
      ensures this.filter == filter
    {
      this.filter := filter;
    }

    /** The pre-hook of every filtered operation. */
    method PreHook(contexts: TenantContextStore) returns (r: Result<()>)
      modifies this
      ensures match VerdictOf(contexts.stack)
              case Unscoped => r == Ok(()) && filter == old(filter)
              case FailClosed => r == Err(NoTenantContext) && filter == old(filter)
              case Scoped(t) => r == Ok(()) && filter == Rewrite(old(filter), t)
      // No context, or one that neither bypasses nor names a tenant: refused.
      ensures contexts.stack == [] ==> r == Err(NoTenantContext) && filter == old(filter)
      ensures contexts.stack != [] ==>
                var top := contexts.stack[|contexts.stack| - 1];
                // Under bypass the filter stays.
                && (top.bypass ==> r == Ok(()) && filter == old(filter))
                && (!top.bypass && top.tenantId in {None, Some("")} ==>
                      r == Err(NoTenantContext) && filter == old(filter))
                // Otherwise it matches the innermost context's tenant's documents only.
                && (!top.bypass && top.tenantId !in {None, Some("")} ==>
                      && r == Ok(())
                      && forall d :: Matches(d, filter) <==>
                                       d.tenantId == top.tenantId.value && Matches(d, Without(old(filter))))
    {
      if contexts.IsBypassed() {
        return Ok(());
      }
      var tenantId := contexts.GetTenantId();
      if tenantId.None? || tenantId.value == "" {
        return Err(NoTenantContext);
      }
      ghost var asked := filter;
      filter := Rewrite(filter, tenantId.value);
      forall d
        ensures Matches(d, filter) <==> d.tenantId == tenantId.value && Matches(d, Without(asked))
      {
        RewriteMeans(d, asked, tenantId.value);
      }
      r := Ok(());
    }
  }

  // ---- Aggregations ----

  /** A pipeline stage: a $match, or any other that computes its output from its input
      documents alone ($group, $sort, $project, $limit, ...). */
  datatype Stage = Match(f: Filter) | Other(run: seq<Doc> -> seq<Doc>)

  class Aggregation {
    var pipeline: seq<Stage>

    constructor (pipeline: seq<Stage>)
      ensures this.pipeline == pipeline
    {
      this.pipeline := pipeline;
    }

    /** `pipeline().unshift({ $match: { tenantId } })`. */
    method PreHook(contexts: TenantContextStore) returns (r: Result<()>)
      modifies this
      ensures match VerdictOf(contexts.stack)
              case Unscoped => r == Ok(()) && pipeline == old(pipeline)
              case FailClosed => r == Err(NoTenantContext) && pipeline == old(pipeline)
              case Scoped(t) => r == Ok(()) && pipeline == [Match(Filter([OnlyTenant(t)]))] + old(pipeline)
      ensures contexts.stack == [] ==> r == Err(NoTenantContext) && pipeline == old(pipeline)
      ensures contexts.stack != [] ==>
                var top := contexts.stack[|contexts.stack| - 1];
                && (top.bypass ==> r == Ok(()) && pipeline == old(pipeline))
                && (!top.bypass && top.tenantId in {None, Some("")} ==>
                      r == Err(NoTenantContext) && pipeline == old(pipeline))
                // Otherwise a $match on the tenant comes first.
                && (!top.bypass && top.tenantId !in {None, Some("")} ==>
                      && r == Ok(()) && |pipeline| == |old(pipeline)| + 1 && pipeline[1..] == old(pipeline)
                      && pipeline[0].Match?
                      && forall d :: Matches(d, pipeline[0].f) <==> d.tenantId == top.tenantId.value)
    {
      if contexts.IsBypassed() {
        return Ok(());
      }
      var tenantId := contexts.GetTenantId();
      if tenantId.None? || tenantId.value == "" {
        return Err(NoTenantContext);
      }
      pipeline := [Match(Filter([OnlyTenant(tenantId.value)]))] + pipeline;
      forall d
        ensures Matches(d, pipeline[0].f) <==> d.tenantId == tenantId.value
      {
        OnlyTenantMeans(d, tenantId.value);
      }
      r := Ok(());
    }
  }

  // ---- Writes ----

  /** The tenantId a saved document ends up with, or the error that refuses the save. */
  function Stamp(v: Verdict, own: Option<string>): (r: Result<string>) {
    match v
    case Unscoped => if Truthy(own) then Ok(own.value) else Err(MissingTenant)
    case FailClosed => Err(NoTenantContext)
    case Scoped(t) => if Truthy(own) && own.value != t then Err(ForeignTenant) else Ok(t)
  }

  class Document {
    var tenantId: Option<string>

    constructor (tenantId: Option<string>)
      ensures this.tenantId == tenantId
    {
      this.tenantId := tenantId;
    }

    /** The `validate` hook of a save. */
    method PreValidate(contexts: TenantContextStore) returns (r: Result<()>)
      modifies this
      ensures match Stamp(VerdictOf(contexts.stack), old(tenantId))
              case Ok(t) => r == Ok(()) && tenantId == Some(t)
              case Err(e) => r == Err(e) && tenantId == old(tenantId)
      ensures contexts.stack == [] ==> r == Err(NoTenantContext) && tenantId == old(tenantId)
      ensures contexts.stack != [] ==>
                var top := contexts.stack[|contexts.stack| - 1];
                var own := old(tenantId);
                // Under bypass the document must name its tenant, and keeps it.
                && (top.bypass ==>
                      tenantId == own && r == if own in {None, Some("")} then Err(MissingTenant) else Ok(()))
                && (!top.bypass && top.tenantId in {None, Some("")} ==>
                      r == Err(NoTenantContext) && tenantId == own)
                // Otherwise it becomes the context's, unless it says it is another's.
                && (!top.bypass && top.tenantId !in {None, Some("")} ==>
                      if own in {None, Some(""), top.tenantId} then r == Ok(()) && tenantId == top.tenantId
                      else r == Err(ForeignTenant) && tenantId == own)
    {
      if contexts.IsBypassed() {
        if !Truthy(tenantId) {
          return Err(MissingTenant);
        }
        return Ok(());
      }
      var t := contexts.GetTenantId();
      if t.None? || t.value == "" {
        return Err(NoTenantContext);
      }
      if Truthy(tenantId) && tenantId != t {
        return Err(ForeignTenant);
      }
      tenantId := t;
      r := Ok(());
    }
  }

  /** The insertMany hook: every document is the context's, whatever it said before. */
  method PreInsertMany(contexts: TenantContextStore, docs: seq<Document>) returns (r: Result<()>)
    modifies docs
    ensures match VerdictOf(contexts.stack)
            case Unscoped => r == Ok(()) && forall d :: d in docs ==> d.tenantId == old(d.tenantId)
            case FailClosed => r == Err(NoTenantContext) && forall d :: d in docs ==> d.tenantId == old(d.tenantId)
            case Scoped(t) => r == Ok(()) && forall d :: d in docs ==> d.tenantId == Some(t)
    ensures contexts.stack == [] ==>
              r == Err(NoTenantContext) && forall d :: d in docs ==> d.tenantId == old(d.tenantId)
    ensures contexts.stack != [] ==>
              var top := contexts.stack[|contexts.stack| - 1];
              && (top.bypass ==> r == Ok(()) && forall d :: d in docs ==> d.tenantId == old(d.tenantId))
              && (!top.bypass && top.tenantId in {None, Some("")} ==>
                    r == Err(NoTenantContext) && forall d :: d in docs ==> d.tenantId == old(d.tenantId))
              && (!top.bypass && top.tenantId !in {None, Some("")} ==>
                    r == Ok(()) && forall d :: d in docs ==> d.tenantId == top.tenantId)
  {
    if contexts.IsBypassed() {
      return Ok(());
    }
    var tenantId := contexts.GetTenantId();
    if tenantId.None? || tenantId.value == "" {
      return Err(NoTenantContext);
    }
    for i := 0 to |docs|
      invariant forall j :: 0 <= j < i ==> docs[j].tenantId == tenantId
    {
      docs[i].tenantId := tenantId;
    }
    r := Ok(());
  }
}
