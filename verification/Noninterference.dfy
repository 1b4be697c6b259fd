/** Noninterference over traces: what a tenant observes, and what becomes of its documents,
    does not depend on the other tenants. */
module Noninterference {
  import opened Wrappers
  import opened Filters
  import opened TenantPlugin
  import opened Isolation

  /** Asynchronous flows enter and leave contexts, and operate under their innermost one.
      Events of different flows interleave in any way. */
  datatype Event = Enter(flow: nat, ctx: Context) | Leave(flow: nat) | Do(flow: nat, op: Op)

  function StackOf(st: map<nat, seq<Context>>, flow: nat): seq<Context> {
    if flow in st then st[flow] else []
  }

  function NextContexts(st: map<nat, seq<Context>>, e: Event): map<nat, seq<Context>> {
    match e
    case Enter(flow, ctx) => st[flow := StackOf(st, flow) + [ctx]]
    case Leave(flow) =>
      var stack := StackOf(st, flow);
      if stack == [] then st else st[flow := stack[..|stack| - 1]]
    case Do(_, _) => st
  }

  /** The tenant an event operates under, if it is a scoped operation. */
  function TenantOf(st: map<nat, seq<Context>>, e: Event): Option<string> {
    if e.Do? && VerdictOf(StackOf(st, e.flow)).Scoped? then Some(VerdictOf(StackOf(st, e.flow)).t) else None
  }

  // ---- What flows have been given ----

  /** The flow was returned this document, under this owner, and may save it later. */
  datatype Held = Held(flow: nat, id: Id, own: string)

  /** The documents an operation hands to its flow: what a query finds, what a create made.
      A pipeline returns plain values. */
  function Returned(c: seq<Doc>, v: Verdict, op: Op): seq<Doc> {
    match v
    case FailClosed => []
    case Unscoped =>
      (match op
       case Find(f) => Select(c, f)
       case FindOne(f) => First(Select(c, f))
       case _ => [])
    case Scoped(t) =>
      (match op
       case Find(f) => Select(c, Rewrite(f, t))
       case FindOne(f) => First(Select(c, Rewrite(f, t)))
       case Create(draft) => if Effect(c, t, op).1.Inserted? then [Doc(draft.id, t, draft.fields)] else []
       case InsertMany(drafts) => if Effect(c, t, op).1.Inserted? then Drafted(drafts, t) else []
       case _ => [])
  }

  function NextHeld(c: seq<Doc>, st: map<nat, seq<Context>>, held: set<Held>, e: Event): set<Held> {
    if !e.Do? then held
    else
      var docs := Returned(c, VerdictOf(StackOf(st, e.flow)), e.op);
      held + set k | 0 <= k < |docs| :: Held(e.flow, docs[k].id, docs[k].tenantId)
  }

  // ---- What a trace may contain ----

  /** Only reads run under bypass, updates set no tenantId, a saved document was returned to
      the flow that saves it, and new ids are new. */
  predicate Allowed(c: seq<Doc>, st: map<nat, seq<Context>>, held: set<Held>, e: Event) {
    && (e.Do? && VerdictOf(StackOf(st, e.flow)).Unscoped? ==> IsRead(e.op))
    && (TenantOf(st, e).Some? ==>
          && (e.op.Update? ==> e.op.moveTo.None?)
          && (e.op.Save? ==> Held(e.flow, e.op.id, e.op.own) in held)
          && (forall k :: 0 <= k < |c| ==> c[k].id !in NewIds(e.op))
          && (forall h :: h in held ==> h.id !in NewIds(e.op)))
  }

  /** The collection after an event. Out of context an operation throws; under bypass only
      reads are allowed, and they change nothing. */
  function NextColl(c: seq<Doc>, st: map<nat, seq<Context>>, e: Event): seq<Doc> {
    if TenantOf(st, e).Some? then Effect(c, TenantOf(st, e).value, e.op).0 else c
  }

  predicate AllowedTrace(c: seq<Doc>, st: map<nat, seq<Context>>, held: set<Held>, trace: seq<Event>)
    decreases |trace|
  {
    trace == [] ||
    (Allowed(c, st, held, trace[0])
     && AllowedTrace(NextColl(c, st, trace[0]), NextContexts(st, trace[0]), NextHeld(c, st, held, trace[0]),
                     trace[1..]))
  }

  /** None of tenant t's operations gives a document a payment id another tenant holds. */
  predicate ClashFree(c: seq<Doc>, st: map<nat, seq<Context>>, trace: seq<Event>, t: string)
    decreases |trace|
  {
    trace != [] ==>
      && (TenantOf(st, trace[0]) == Some(t) ==> NoForeignClash(c, t, trace[0].op))
      && ClashFree(NextColl(c, st, trace[0]), NextContexts(st, trace[0]), trace[1..], t)
  }

  // ---- Runs, observations, purging ----

  function After(c: seq<Doc>, st: map<nat, seq<Context>>, trace: seq<Event>): seq<Doc>
    decreases |trace|
  {
    if trace == [] then c else After(NextColl(c, st, trace[0]), NextContexts(st, trace[0]), trace[1..])
  }

  /** The results tenant t's operations return, in order. */
  function Observed(c: seq<Doc>, st: map<nat, seq<Context>>, trace: seq<Event>, t: string): seq<Outcome>
    decreases |trace|
  {
    if trace == [] then []
    else
      var rest := Observed(NextColl(c, st, trace[0]), NextContexts(st, trace[0]), trace[1..], t);
      if TenantOf(st, trace[0]) == Some(t) then [Effect(c, t, trace[0].op).1] + rest else rest
  }

  /** The trace without the operations that are not tenant t's. */
  function Purge(st: map<nat, seq<Context>>, trace: seq<Event>, t: string): seq<Event>
    decreases |trace|
  {
    if trace == [] then []
    else
      var rest := Purge(NextContexts(st, trace[0]), trace[1..], t);
      if trace[0].Do? && TenantOf(st, trace[0]) != Some(t) then rest else [trace[0]] + rest
  }

  // ---- What traces mean ----

  /** An operation is tenant t's exactly when the innermost context of its flow names t and
      does not bypass. */
  lemma TenantOfIff(st: map<nat, seq<Context>>, e: Event, t: string)
    ensures TenantOf(st, e) == Some(t) <==>
              && e.Do? && e.flow in st && st[e.flow] != []
              && var top := st[e.flow][|st[e.flow]| - 1];
              && !top.bypass && top.tenantId == Some(t) && t != ""
  {
  }

  /** A context entered decides for its own flow, and changes nothing for others. */
  lemma EnterDecides(st: map<nat, seq<Context>>, flow: nat, ctx: Context, other: nat)
    requires other != flow
    ensures VerdictOf(StackOf(NextContexts(st, Enter(flow, ctx)), flow)) == VerdictOf([ctx])
    ensures StackOf(NextContexts(st, Enter(flow, ctx)), other) == StackOf(st, other)
    ensures StackOf(NextContexts(st, Leave(flow)), other) == StackOf(st, other)
  {
  }

  lemma {:induction false} ContextsCons(st: map<nat, seq<Context>>, trace: seq<Event>)
    requires trace != []
    ensures ContextsAfter(st, trace) == ContextsAfter(NextContexts(st, trace[0]), trace[1..])
    decreases |trace|
  {
    if |trace| > 1 {
      ContextsCons(st, trace[..|trace| - 1]);
      assert trace[..|trace| - 1][1..] == trace[1..][..|trace| - 2];
    }
  }

  /** What the last event of a trace adds: when it is an operation under a tenant's context, its
      effect on the collection at that point, and for that tenant its result. */
  lemma {:induction false} LastEvent(c: seq<Doc>, st: map<nat, seq<Context>>, trace: seq<Event>, e: Event, t: string)
    ensures var (now, owner) := (After(c, st, trace), TenantOf(ContextsAfter(st, trace), e));
            && After(c, st, trace + [e]) == (if owner.Some? then Effect(now, owner.value, e.op).0 else now)
            && Observed(c, st, trace + [e], t)
            == Observed(c, st, trace, t) + if owner == Some(t) then [Effect(now, t, e.op).1] else []
    ensures After(c, st, []) == c && Observed(c, st, [], t) == []
    decreases |trace|
  {
    if trace == [] {
      assert [e][1..] == [];
    } else {
      assert (trace + [e])[1..] == trace[1..] + [e];
      LastEvent(NextColl(c, st, trace[0]), NextContexts(st, trace[0]), trace[1..], e, t);
      ContextsCons(st, trace);
    }
  }

  /** A flow may save whatever a query of its own returned to it. */
  lemma FindThenSave(c: seq<Doc>, st: map<nat, seq<Context>>, held: set<Held>, flow: nat, t: string, op: Op,
                     changes: map<string, Value>, k: nat)
    requires VerdictOf(StackOf(st, flow)) == Scoped(t) && (op.Find? || op.FindOne?)
    requires Effect(c, t, op).1.Found? && k < |Effect(c, t, op).1.docs|
    ensures var d := Effect(c, t, op).1.docs[k];
            AllowedTrace(c, st, held, [Do(flow, op), Do(flow, Save(d.id, d.tenantId, changes))])
  {
    var d := Effect(c, t, op).1.docs[k];
    var first, second := Do(flow, op), Do(flow, Save(d.id, d.tenantId, changes));
    var held' := NextHeld(c, st, held, first);
    assert Held(flow, d.id, d.tenantId) in held';
    assert [first, second][1..] == [second] && [second][1..] == [];
    assert Allowed(c, st, held, first) && Allowed(c, st, held', second);
    assert AllowedTrace(NextColl(c, st, first), st, held', [second]);
  }

  /** And what it created itself. */
  lemma CreateThenSave(c: seq<Doc>, st: map<nat, seq<Context>>, held: set<Held>, flow: nat, t: string, draft: Draft,
                       changes: map<string, Value>)
    requires VerdictOf(StackOf(st, flow)) == Scoped(t) && Effect(c, t, Create(draft)).1 == Inserted
    requires forall k :: 0 <= k < |c| ==> c[k].id != draft.id
    requires forall h :: h in held ==> h.id != draft.id
    ensures AllowedTrace(c, st, held, [Do(flow, Create(draft)), Do(flow, Save(draft.id, t, changes))])
  {
    var first, second := Do(flow, Create(draft)), Do(flow, Save(draft.id, t, changes));
    var held', c' := NextHeld(c, st, held, first), NextColl(c, st, first);
    assert Returned(c, Scoped(t), Create(draft))[0] == Doc(draft.id, t, draft.fields);
    assert Held(flow, draft.id, t) in held';
    assert [first, second][1..] == [second] && [second][1..] == [];
    assert Allowed(c, st, held, first) && Allowed(c', st, held', second);
    assert AllowedTrace(c', st, held', [second]);
  }

  // ---- What every allowed trace keeps ----

  /** The index holds, an id has one owner, every document has one, and what flows hold is
      still true of the collection. */
  predicate Sound(c: seq<Doc>, held: set<Held>) {
    && Unique(c)
    && (forall k :: 0 <= k < |c| ==> c[k].tenantId != "" && LoadedFrom(c, c[k].id, c[k].tenantId))
    && (forall h :: h in held ==> h.own != "" && LoadedFrom(c, h.id, h.own))
  }

  lemma OrdinaryHere(c: seq<Doc>, st: map<nat, seq<Context>>, held: set<Held>, e: Event)
    requires Sound(c, held) && Allowed(c, st, held, e) && TenantOf(st, e).Some?
    ensures Ordinary(c, e.op)
  {
  }

  lemma EffectKeepsIndex(c: seq<Doc>, t: string, op: Op)
    requires Unique(c)
    ensures Unique(Effect(c, t, op).0)
  {
  }

  /** A document the collection holds after an operation has the one owner of its id. */
  lemma EffectKeepsOwners(c: seq<Doc>, t: string, op: Op)
    requires t != "" && (op.Update? ==> op.moveTo.None?)
    requires forall k :: 0 <= k < |c| ==> c[k].tenantId != "" && LoadedFrom(c, c[k].id, c[k].tenantId)
    requires forall k :: 0 <= k < |c| ==> c[k].id !in NewIds(op)
    ensures var after := Effect(c, t, op).0;
            forall k :: 0 <= k < |after| ==>
              after[k].tenantId != "" && LoadedFrom(after, after[k].id, after[k].tenantId)
  {
    var after := Effect(c, t, op).0;
    EffectOwners(c, t, op);
    forall k | 0 <= k < |after|
      ensures after[k].tenantId != "" && LoadedFrom(after, after[k].id, after[k].tenantId)
    {
      if HasOwned(c, after[k].id, after[k].tenantId) {
        var i :| 0 <= i < |c| && c[i].id == after[k].id && c[i].tenantId == after[k].tenantId;
        OwnerStays(c, t, op, c[i].id, c[i].tenantId);
      } else {
        NewIsOwned(c, t, op, after[k].id);
      }
    }
  }

  lemma NewIsOwned(c: seq<Doc>, t: string, op: Op, id: Id)
    requires (op.Update? ==> op.moveTo.None?) && id in NewIds(op)
    requires forall k :: 0 <= k < |c| ==> c[k].id !in NewIds(op)
    ensures LoadedFrom(Effect(c, t, op).0, id, t)
  {
    EffectOwners(c, t, op);
  }

  lemma {:induction false} SelectedFrom(c: seq<Doc>, f: Filter, k: nat) returns (i: nat)
    requires k < |Select(c, f)|
    ensures i < |c| && c[i] == Select(c, f)[k]
  {
    if !Matches(c[0], f) {
      i := SelectedFrom(c[1..], f, k);
      i := i + 1;
    } else if k == 0 {
      i := 0;
    } else {
      i := SelectedFrom(c[1..], f, k - 1);
      i := i + 1;
    }
  }

  /** What a flow is handed is owned as it says, in the collection the operation leaves. */
  lemma ReturnedIsOwned(c: seq<Doc>, v: Verdict, op: Op, k: nat)
    requires Sound(c, {}) && (v.Scoped? ==> v.t != "" && forall i :: 0 <= i < |c| ==> c[i].id !in NewIds(op))
    requires (v.Unscoped? ==> IsRead(op)) && k < |Returned(c, v, op)|
    ensures var d, after := Returned(c, v, op)[k], if v.Scoped? then Effect(c, v.t, op).0 else c;
            d.tenantId != "" && LoadedFrom(after, d.id, d.tenantId)
  {
    match op
    case Find(f) => var i := SelectedFrom(c, if v.Scoped? then Rewrite(f, v.t) else f, k);
    case FindOne(f) => var i := SelectedFrom(c, if v.Scoped? then Rewrite(f, v.t) else f, k);
    case Create(draft) => NewIsOwned(c, v.t, op, draft.id);
    case InsertMany(drafts) =>
      DraftedIds(drafts, v.t);
      DraftedIsTenants(drafts, v.t);
      NewIsOwned(c, v.t, op, drafts[k].id);
    case _ =>
  }

  lemma SoundStep(c: seq<Doc>, st: map<nat, seq<Context>>, held: set<Held>, e: Event)
    requires Sound(c, held) && Allowed(c, st, held, e)
    ensures Sound(NextColl(c, st, e), NextHeld(c, st, held, e))
  {
    var after, held' := NextColl(c, st, e), NextHeld(c, st, held, e);
    if TenantOf(st, e).Some? {
      EffectKeepsIndex(c, TenantOf(st, e).value, e.op);
      EffectKeepsOwners(c, TenantOf(st, e).value, e.op);
    }
    forall h | h in held'
      ensures h.own != "" && LoadedFrom(after, h.id, h.own)
    {
      if h in held {
        if TenantOf(st, e).Some? {
          OwnerStays(c, TenantOf(st, e).value, e.op, h.id, h.own);
        }
      } else {
        var v := VerdictOf(StackOf(st, e.flow));
        var docs := Returned(c, v, e.op);
        var k :| 0 <= k < |docs| && h == Held(e.flow, docs[k].id, docs[k].tenantId);
        ReturnedIsOwned(c, v, e.op, k);
      }
    }
  }

  // ---- The theorem ----

  /** Tenant t observes the same results, and ends with the same documents, as if nobody
      else's operations had run and nobody else's documents existed. */
  lemma {:induction false} PurgingChangesNothing(c: seq<Doc>, st: map<nat, seq<Context>>, held: set<Held>,
                                                 trace: seq<Event>, t: string)
    requires Sound(c, held) && AllowedTrace(c, st, held, trace) && ClashFree(c, st, trace, t)
    ensures Observed(Project(c, t), st, Purge(st, trace, t), t) == Observed(c, st, trace, t)
    ensures After(Project(c, t), st, Purge(st, trace, t)) == Project(After(c, st, trace), t)
    decreases |trace|
  {
    if trace != [] {
      var e, st' := trace[0], NextContexts(st, trace[0]);
      var c', rest := NextColl(c, st, e), Purge(st', trace[1..], t);
      SoundStep(c, st, held, e);
      PurgingChangesNothing(c', st', NextHeld(c, st, held, e), trace[1..], t);
      if TenantOf(st, e).Some? {
        OrdinaryHere(c, st, held, e);
      }
      if e.Do? && TenantOf(st, e) != Some(t) {
        if TenantOf(st, e).Some? {
          EffectElsewhere(c, TenantOf(st, e).value, e.op, t);
        }
      } else {
        var purged := [e] + rest;
        assert purged[1..] == rest;
        if e.Do? {
          EffectCommutesIff(c, t, e.op);
        }
      }
    }
  }

  /** Two collections that agree on tenant t's documents give t the same results, and still
      agree afterwards, whatever the rest of them holds. */
  lemma AgreeingCollections(c: seq<Doc>, d: seq<Doc>, st: map<nat, seq<Context>>, held: set<Held>, held': set<Held>,
                            trace: seq<Event>, t: string)
    requires Project(c, t) == Project(d, t)
    requires Sound(c, held) && AllowedTrace(c, st, held, trace) && ClashFree(c, st, trace, t)
    requires Sound(d, held') && AllowedTrace(d, st, held', trace) && ClashFree(d, st, trace, t)
    ensures Observed(c, st, trace, t) == Observed(d, st, trace, t)
    ensures Project(After(c, st, trace), t) == Project(After(d, st, trace), t)
  {
    PurgingChangesNothing(c, st, held, trace, t);
    PurgingChangesNothing(d, st, held', trace, t);
  }

  /** Operations none of which is tenant t's leave its documents as they were. */
  lemma {:induction false} OthersLeaveAlone(c: seq<Doc>, st: map<nat, seq<Context>>, held: set<Held>, trace: seq<Event>,
                                            t: string)
    requires Sound(c, held) && AllowedTrace(c, st, held, trace) && NeverScopedTo(st, trace, t)
    ensures Project(After(c, st, trace), t) == Project(c, t)
    decreases |trace|
  {
    if trace != [] {
      var e := trace[0];
      SoundStep(c, st, held, e);
      if TenantOf(st, e).Some? {
        OrdinaryHere(c, st, held, e);
        EffectElsewhere(c, TenantOf(st, e).value, e.op, t);
      }
      OthersLeaveAlone(NextColl(c, st, e), NextContexts(st, e), NextHeld(c, st, held, e), trace[1..], t);
    }
  }

  predicate NeverScopedTo(st: map<nat, seq<Context>>, trace: seq<Event>, t: string)
    decreases |trace|
  {
    trace == [] || (TenantOf(st, trace[0]) != Some(t) && NeverScopedTo(NextContexts(st, trace[0]), trace[1..], t))
  }

  // ---- The exceptions ----

  /** The index is global: tenant "b" cannot store a payment id that only "a" has. */
  lemma IndexCrossesTenants()
    ensures var theirs := Doc(1, "a", map[INDEX := Str("pay")]);
            var op := Create(Draft(2, None, map[INDEX := Str("pay")]));
            && !NoForeignClash([theirs], "b", op)
            && Effect([theirs], "b", op) == ([theirs], Threw(DuplicateKey))
            && Effect([], "b", op).1 == Inserted
  {
    var theirs, mine := Doc(1, "a", map[INDEX := Str("pay")]), Doc(2, "b", map[INDEX := Str("pay")]);
    var op := Create(Draft(2, None, map[INDEX := Str("pay")]));
    assert Raw([theirs], "b", op).0 == [theirs, mine];
    assert SameIndexKey([theirs, mine][0], [theirs, mine][1]);
    assert Project([theirs], "b") == [] && Rest([theirs], "b") == [theirs];
    assert Raw([], "b", op).0 == [mine];
    assert !Clear([mine][0], [theirs]) by {
      assert SameIndexKey(mine, [theirs][0]);
    }
  }

  /** An update that sets tenantId can push a document into another tenant. */
  lemma MovingCrossesTenants()
    ensures var mine := Doc(1, "a", map[]);
            var op := Update(Filter([]), true, map[], Some("b"));
            Project([mine], "b") == [] && |Project(Effect([mine], "a", op).0, "b")| == 1
  {
    var mine := Doc(1, "a", map[]);
    var op := Update(Filter([]), true, map[], Some("b"));
    RewriteMeans(mine, Filter([]), "a");
    UpdateElsewhereIff([mine], Filter([]), true, map[], Some("b"), "a", "b");
    assert Select([mine], Rewrite(Filter([]), "a")) == [mine];
    assert Unique(Raw([mine], "a", op).0);
  }

  // ---- Nested contexts ----

  function Entered(trace: seq<Event>, flow: nat): int {
    if trace == [] then 0
    else
      (match trace[|trace| - 1]
       case Enter(f, _) => if f == flow then 1 else 0
       case Leave(f) => if f == flow then -1 else 0
       case Do(_, _) => 0) + Entered(trace[..|trace| - 1], flow)
  }

  function ContextsAfter(st: map<nat, seq<Context>>, trace: seq<Event>): map<nat, seq<Context>> {
    if trace == [] then st else NextContexts(ContextsAfter(st, trace[..|trace| - 1]), trace[|trace| - 1])
  }

  /** The flow never leaves a context it did not enter in this trace. */
  predicate Nested(trace: seq<Event>, flow: nat) {
    forall k :: 0 <= k <= |trace| ==> Entered(trace[..k], flow) >= 0
  }

  lemma {:induction false} NestedStack(st: map<nat, seq<Context>>, trace: seq<Event>, flow: nat)
    requires Nested(trace, flow)
    ensures var before, after := StackOf(st, flow), StackOf(ContextsAfter(st, trace), flow);
            |after| == |before| + Entered(trace, flow) >= |before| && after[..|before|] == before
    decreases |trace|
  {
    assert trace[..|trace|] == trace;
    if trace != [] {
      var prefix := trace[..|trace| - 1];
      forall k | 0 <= k <= |prefix|
        ensures Entered(prefix[..k], flow) >= 0
      {
        assert prefix[..k] == trace[..k];
      }
      NestedStack(st, prefix, flow);
    }
  }

  /** However runs nest and whatever other flows do meanwhile, when all a flow entered is
      left again, the plugin judges it as before. */
  lemma ContextRestored(st: map<nat, seq<Context>>, trace: seq<Event>, flow: nat)
    requires Nested(trace, flow) && Entered(trace, flow) == 0
    ensures VerdictOf(StackOf(ContextsAfter(st, trace), flow)) == VerdictOf(StackOf(st, flow))
  {
    NestedStack(st, trace, flow);
    assert StackOf(ContextsAfter(st, trace), flow) == StackOf(st, flow);
  }
}
