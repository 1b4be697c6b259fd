/** Tenant isolation: under the plugin, an operation on the shared collection does to a
    tenant's documents what it would do on a collection of theirs alone. */
module Isolation {
  import opened Wrappers
  import opened Filters
  import opened TenantPlugin

  // ---- A shared collection, in its natural order ----

  function Select(c: seq<Doc>, f: Filter): seq<Doc> {
    if c == [] then []
    else if Matches(c[0], f) then [c[0]] + Select(c[1..], f) else Select(c[1..], f)
  }

  /** The documents of one tenant. */
  function Project(c: seq<Doc>, t: string): seq<Doc> {
    if c == [] then []
    else if c[0].tenantId == t then [c[0]] + Project(c[1..], t) else Project(c[1..], t)
  }

  /** Those of all others. */
  function Rest(c: seq<Doc>, t: string): seq<Doc> {
    if c == [] then []
    else if c[0].tenantId != t then [c[0]] + Rest(c[1..], t) else Rest(c[1..], t)
  }

  function RunStage(s: Stage, c: seq<Doc>): seq<Doc> {
    match s
    case Match(f) => Select(c, f)
    case Other(run) => run(c)
  }

  function RunPipeline(stages: seq<Stage>, c: seq<Doc>): seq<Doc> {
    if stages == [] then c else RunPipeline(stages[1..], RunStage(stages[0], c))
  }

  // ---- Operations ----

  datatype Draft = Draft(id: Id, own: Option<string>, fields: map<string, Value>)

  /** A single-document operation takes the first document that matches, unless `many`.
      `newId` is the _id of an insert, `moveTo` a tenantId an update sets. A save carries
      the tenantId its document was loaded with. */
  datatype Op =
    | Find(f: Filter)
    | FindOne(f: Filter)
    | Aggregate(stages: seq<Stage>)
    | Update(f: Filter, many: bool, changes: map<string, Value>, moveTo: Option<string>)
    | Delete(f: Filter, many: bool)
    | Upsert(f: Filter, changes: map<string, Value>, insert: map<string, Value>, newId: Id)
    | Create(draft: Draft)
    | InsertMany(drafts: seq<Draft>)
    | Save(id: Id, own: string, changes: map<string, Value>)

  datatype Outcome = Found(docs: seq<Doc>) | Changed(count: nat) | Inserted | Threw(error: Error)

  function First(docs: seq<Doc>): seq<Doc> {
    if docs == [] then [] else [docs[0]]
  }

  function Changing(d: Doc, changes: map<string, Value>, moveTo: Option<string>): Doc {
    Doc(d.id, if moveTo.Some? then moveTo.value else d.tenantId, d.fields + changes)
  }

  /** How many documents an operation with this filter takes. */
  function CountHits(c: seq<Doc>, f: Filter, many: bool): nat {
    if many then |Select(c, f)| else |First(Select(c, f))|
  }

  function UpdateHits(c: seq<Doc>, f: Filter, many: bool, changes: map<string, Value>, moveTo: Option<string>)
    : seq<Doc>
  {
    if c == [] then []
    else if Matches(c[0], f) then
      [Changing(c[0], changes, moveTo)] + if many then UpdateHits(c[1..], f, many, changes, moveTo) else c[1..]
    else [c[0]] + UpdateHits(c[1..], f, many, changes, moveTo)
  }

  function DeleteHits(c: seq<Doc>, f: Filter, many: bool): seq<Doc> {
    if c == [] then []
    else if Matches(c[0], f) then (if many then DeleteHits(c[1..], f, many) else c[1..])
    else [c[0]] + DeleteHits(c[1..], f, many)
  }

  function SaveHits(c: seq<Doc>, id: Id, changes: map<string, Value>): seq<Doc> {
    if c == [] then []
    else [if c[0].id == id then Changing(c[0], changes, None) else c[0]] + SaveHits(c[1..], id, changes)
  }

  function Drafted(drafts: seq<Draft>, t: string): seq<Doc> {
    if drafts == [] then [] else [Doc(drafts[0].id, t, drafts[0].fields)] + Drafted(drafts[1..], t)
  }

  // ---- The plugin at work ----

  /** A scoped operation, before the unique index has its say. */
  function Raw(c: seq<Doc>, t: string, op: Op): (seq<Doc>, Outcome) {
    match op
    case Find(f) => (c, Found(Select(c, Rewrite(f, t))))
    case FindOne(f) => (c, Found(First(Select(c, Rewrite(f, t)))))
    case Aggregate(stages) => (c, Found(RunPipeline([Match(Filter([OnlyTenant(t)]))] + stages, c)))
    case Update(f, many, changes, moveTo) =>
      (UpdateHits(c, Rewrite(f, t), many, changes, moveTo), Changed(CountHits(c, Rewrite(f, t), many)))
    case Delete(f, many) => (DeleteHits(c, Rewrite(f, t), many), Changed(CountHits(c, Rewrite(f, t), many)))
    case Upsert(f, changes, insert, newId) =>
      if CountHits(c, Rewrite(f, t), false) > 0
      then (UpdateHits(c, Rewrite(f, t), false, changes, None), Changed(1))
      else (c + [Doc(newId, t, insert + changes)], Inserted)
    case Create(draft) =>
      (match Stamp(Scoped(t), draft.own)
       case Ok(owner) => (c + [Doc(draft.id, owner, draft.fields)], Inserted)
       case Err(e) => (c, Threw(e)))
    case InsertMany(drafts) => (c + Drafted(drafts, t), Inserted)
    case Save(id, own, changes) =>
      (match Stamp(Scoped(t), Some(own))
       case Ok(_) => (SaveHits(c, id, changes), Changed(1))
       case Err(e) => (c, Threw(e)))
  }

  const INDEX: string := "gatewayPaymentId"

  predicate SameIndexKey(a: Doc, b: Doc) {
    INDEX in a.fields && INDEX in b.fields && a.fields[INDEX] == b.fields[INDEX] != Null
  }

  /** The global unique index: it spans all tenants. */
  predicate Unique(c: seq<Doc>) {
    forall i, j :: 0 <= i < j < |c| ==> !SameIndexKey(c[i], c[j])
  }

  predicate IsRead(op: Op) {
    op.Find? || op.FindOne? || op.Aggregate?
  }

  /** A scoped operation, rejected whole when it would break the index. */
  function Effect(c: seq<Doc>, t: string, op: Op): (seq<Doc>, Outcome) {
    var (after, out) := Raw(c, t, op);
    if IsRead(op) || Unique(after) then (after, out) else (c, Threw(DuplicateKey))
  }

  // ---- Projections ----

  lemma {:induction false} ProjectAll(c: seq<Doc>, t: string)
    requires forall k :: 0 <= k < |c| ==> c[k].tenantId == t
    ensures Project(c, t) == c && Rest(c, t) == []
  {
    if c != [] {
      ProjectAll(c[1..], t);
      assert c == [c[0]] + c[1..];
    }
  }

  lemma {:induction false} ProjectConcat(a: seq<Doc>, b: seq<Doc>, t: string)
    ensures Project(a + b, t) == Project(a, t) + Project(b, t)
  {
    if a == [] {
      assert a + b == b;
    } else {
      ProjectConcat(a[1..], b, t);
      assert (a + b)[1..] == a[1..] + b;
    }
  }

  lemma {:induction false} RestConcat(a: seq<Doc>, b: seq<Doc>, t: string)
    ensures Rest(a + b, t) == Rest(a, t) + Rest(b, t)
  {
    if a == [] {
      assert a + b == b;
    } else {
      RestConcat(a[1..], b, t);
      assert (a + b)[1..] == a[1..] + b;
    }
  }

  lemma {:induction false} ProjectIsTenants(c: seq<Doc>, t: string)
    ensures forall k :: 0 <= k < |Project(c, t)| ==> Project(c, t)[k].tenantId == t
  {
    if c != [] {
      ProjectIsTenants(c[1..], t);
    }
  }

  lemma {:induction false} DraftedIsTenants(drafts: seq<Draft>, t: string)
    ensures forall k :: 0 <= k < |Drafted(drafts, t)| ==> Drafted(drafts, t)[k].tenantId == t
  {
    if drafts != [] {
      DraftedIsTenants(drafts[1..], t);
    }
  }

  /** Another tenant's documents are among the rest. */
  lemma {:induction false} ProjectRest(c: seq<Doc>, t: string, u: string)
    requires u != t
    ensures Project(Rest(c, t), u) == Project(c, u)
  {
    if c != [] {
      ProjectRest(c[1..], t, u);
      if c[0].tenantId != t {
        assert Rest(c, t)[1..] == Rest(c[1..], t);
      }
    }
  }

  // ---- Reads see the projection only ----

  /** A scoped find is a find on the tenant's own documents, and so its first document is theirs. */
  lemma {:induction false} SelectScoped(c: seq<Doc>, f: Filter, t: string)
    ensures Select(c, Rewrite(f, t)) == Select(Project(c, t), Rewrite(f, t)) == Select(Project(c, t), Without(f))
  {
    if c != [] {
      SelectScoped(c[1..], f, t);
      RewriteMeans(c[0], f, t);
      if c[0].tenantId == t {
        assert Project(c, t)[1..] == Project(c[1..], t);
      }
    }
  }

  lemma {:induction false} MatchPrefix(c: seq<Doc>, t: string)
    ensures Select(c, Filter([OnlyTenant(t)])) == Project(c, t)
  {
    if c != [] {
      MatchPrefix(c[1..], t);
      MatchesCons(c[0], OnlyTenant(t), []);
      assert [OnlyTenant(t)] + [] == [OnlyTenant(t)];
    }
  }

  /** The prepended $match makes a pipeline run on the tenant's own documents. */
  lemma PipelineScoped(stages: seq<Stage>, c: seq<Doc>, t: string)
    ensures RunPipeline([Match(Filter([OnlyTenant(t)]))] + stages, c) == RunPipeline(stages, Project(c, t))
  {
    var all := [Match(Filter([OnlyTenant(t)]))] + stages;
    assert all[1..] == stages;
    MatchPrefix(c, t);
  }

  // ---- Writes: on the tenant's own documents ----

  lemma {:induction false} UpdateScoped(c: seq<Doc>, f: Filter, many: bool, changes: map<string, Value>, t: string)
    ensures Project(UpdateHits(c, Rewrite(f, t), many, changes, None), t)
         == UpdateHits(Project(c, t), Rewrite(f, t), many, changes, None)
    ensures Rest(UpdateHits(c, Rewrite(f, t), many, changes, None), t) == Rest(c, t)
  {
    if c != [] {
      UpdateScoped(c[1..], f, many, changes, t);
      RewriteMeans(c[0], f, t);
      var after, g := UpdateHits(c, Rewrite(f, t), many, changes, None), Rewrite(f, t);
      assert after[1..] == if Matches(c[0], g) && !many then c[1..] else UpdateHits(c[1..], g, many, changes, None);
      if c[0].tenantId == t {
        assert Project(c, t)[1..] == Project(c[1..], t);
      }
    }
  }

  lemma {:induction false} DeleteScoped(c: seq<Doc>, f: Filter, many: bool, t: string)
    ensures Project(DeleteHits(c, Rewrite(f, t), many), t) == DeleteHits(Project(c, t), Rewrite(f, t), many)
    ensures Rest(DeleteHits(c, Rewrite(f, t), many), t) == Rest(c, t)
  {
    if c != [] {
      DeleteScoped(c[1..], f, many, t);
      RewriteMeans(c[0], f, t);
      if c[0].tenantId == t {
        assert Project(c, t)[1..] == Project(c[1..], t);
      }
    }
  }

  /** The saved document is what the save says it was loaded as. */
  predicate LoadedFrom(c: seq<Doc>, id: Id, own: string) {
    forall k :: 0 <= k < |c| && c[k].id == id ==> c[k].tenantId == own
  }

  lemma {:induction false} SaveScoped(c: seq<Doc>, id: Id, changes: map<string, Value>, t: string)
    ensures Project(SaveHits(c, id, changes), t) == SaveHits(Project(c, t), id, changes)
    ensures LoadedFrom(c, id, t) ==> Rest(SaveHits(c, id, changes), t) == Rest(c, t)
  {
    if c != [] {
      SaveScoped(c[1..], id, changes, t);
      assert SaveHits(c, id, changes)[1..] == SaveHits(c[1..], id, changes);
      if c[0].tenantId == t {
        assert Project(c, t)[1..] == Project(c[1..], t);
      }
      if LoadedFrom(c, id, t) {
        assert LoadedFrom(c[1..], id, t);
      }
    }
  }

  /** An update that may set tenantId, under another tenant: it leaves these documents alone
      exactly when it moves none of its own here. */
  lemma {:induction false} UpdateElsewhereIff(c: seq<Doc>, f: Filter, many: bool, changes: map<string, Value>,
                                              moveTo: Option<string>, u: string, t: string)
    requires u != t
    ensures Project(UpdateHits(c, Rewrite(f, u), many, changes, moveTo), t) == Project(c, t)
            <==> moveTo != Some(t) || CountHits(c, Rewrite(f, u), many) == 0
    ensures |Project(UpdateHits(c, Rewrite(f, u), many, changes, moveTo), t)|
         == |Project(c, t)| + if moveTo == Some(t) then CountHits(c, Rewrite(f, u), many) else 0
  {
    if c != [] {
      UpdateElsewhereIff(c[1..], f, many, changes, moveTo, u, t);
      RewriteMeans(c[0], f, u);
      var after, g := UpdateHits(c, Rewrite(f, u), many, changes, moveTo), Rewrite(f, u);
      assert after[1..] == if Matches(c[0], g) && !many then c[1..] else UpdateHits(c[1..], g, many, changes, moveTo);
      if c[0].tenantId == t {
        assert Project(c, t)[1..] == Project(c[1..], t);
        assert Project(after, t)[1..] == Project(after[1..], t);
      }
    }
  }

  // ---- One operation ----

  /** Updates set no tenantId, and saves are of documents loaded from here. */
  predicate Ordinary(c: seq<Doc>, op: Op) {
    && (op.Update? ==> op.moveTo.None?)
    && (op.Save? ==> op.own != "" && LoadedFrom(c, op.id, op.own))
  }

  lemma AggregateCommutes(c: seq<Doc>, t: string, stages: seq<Stage>)
    ensures Raw(Project(c, t), t, Aggregate(stages)).1 == Raw(c, t, Aggregate(stages)).1
  {
    PipelineScoped(stages, c, t);
    ProjectIsTenants(c, t);
    ProjectAll(Project(c, t), t);
    PipelineScoped(stages, Project(c, t), t);
  }

  lemma UpsertCommutes(c: seq<Doc>, t: string, op: Op)
    requires Ordinary(c, op) && op.Upsert?
    ensures Raw(Project(c, t), t, op).0 == Project(Raw(c, t, op).0, t)
    ensures Raw(Project(c, t), t, op).1 == Raw(c, t, op).1
  {
    SelectScoped(c, op.f, t);
    UpdateScoped(c, op.f, false, op.changes, t);
    ProjectConcat(c, [Doc(op.newId, t, op.insert + op.changes)], t);
  }

  /** The commuting square: operate on the shared collection and project, or project and
      operate. The result is the same either way. */
  lemma RawCommutes(c: seq<Doc>, t: string, op: Op)
    requires Ordinary(c, op)
    ensures Raw(Project(c, t), t, op).0 == Project(Raw(c, t, op).0, t)
    ensures Raw(Project(c, t), t, op).1 == Raw(c, t, op).1
  {
    match op
    case Find(f) =>
      SelectScoped(c, f, t);
    case FindOne(f) =>
      SelectScoped(c, f, t);
    case Aggregate(stages) =>
      AggregateCommutes(c, t, stages);
    case Update(f, many, changes, _) =>
      UpdateScoped(c, f, many, changes, t);
      SelectScoped(c, f, t);
    case Delete(f, many) =>
      DeleteScoped(c, f, many, t);
      SelectScoped(c, f, t);
    case Upsert(_, _, _, _) =>
      UpsertCommutes(c, t, op);
    case Create(draft) =>
      ProjectConcat(c, [Doc(draft.id, t, draft.fields)], t);
    case InsertMany(drafts) =>
      ProjectConcat(c, Drafted(drafts, t), t);
      DraftedIsTenants(drafts, t);
      ProjectAll(Drafted(drafts, t), t);
    case Save(id, _, changes) =>
      SaveScoped(c, id, changes, t);
  }

  /** And nobody else's documents change, nor their order. */
  lemma RawKeepsRest(c: seq<Doc>, t: string, op: Op)
    requires Ordinary(c, op)
    ensures Rest(Raw(c, t, op).0, t) == Rest(c, t)
  {
    match op
    case Find(_) =>
    case FindOne(_) =>
    case Aggregate(_) =>
    case Update(f, many, changes, _) =>
      UpdateScoped(c, f, many, changes, t);
    case Delete(f, many) =>
      DeleteScoped(c, f, many, t);
    case Upsert(f, changes, insert, newId) =>
      UpdateScoped(c, f, false, changes, t);
      RestConcat(c, [Doc(newId, t, insert + changes)], t);
    case Create(draft) =>
      RestConcat(c, [Doc(draft.id, t, draft.fields)], t);
    case InsertMany(drafts) =>
      RestConcat(c, Drafted(drafts, t), t);
      DraftedIsTenants(drafts, t);
      ProjectAll(Drafted(drafts, t), t);
    case Save(id, own, changes) =>
      if own == t {
        SaveScoped(c, id, changes, t);
      }
  }

  /** An operation under another tenant does not touch these documents. */
  lemma RawElsewhere(c: seq<Doc>, u: string, op: Op, t: string)
    requires Ordinary(c, op) && u != t
    ensures Project(Raw(c, u, op).0, t) == Project(c, t)
  {
    RawKeepsRest(c, u, op);
    ProjectRest(c, u, t);
    ProjectRest(Raw(c, u, op).0, u, t);
  }

  // ---- Who owns a document never changes ----

  /** The ids an operation may give to new documents. */
  function NewIds(op: Op): set<Id> {
    match op
    case Upsert(_, _, _, newId) => {newId}
    case Create(draft) => {draft.id}
    case InsertMany(drafts) => set k | 0 <= k < |drafts| :: drafts[k].id
    case _ => {}
  }

  /** The collection has a document with this id and owner. */
  predicate HasOwned(c: seq<Doc>, id: Id, own: string) {
    exists k :: 0 <= k < |c| && c[k].id == id && c[k].tenantId == own
  }

  lemma HasOwnedTail(c: seq<Doc>, id: Id, own: string)
    requires c != [] && HasOwned(c[1..], id, own)
    ensures HasOwned(c, id, own)
  {
    var k :| 0 <= k < |c[1..]| && c[1..][k].id == id && c[1..][k].tenantId == own;
    assert c[k + 1] == c[1..][k];
  }

  /** Every document of `after` was there before under the same owner. */
  predicate SameOwners(c: seq<Doc>, after: seq<Doc>) {
    forall k :: 0 <= k < |after| ==> HasOwned(c, after[k].id, after[k].tenantId)
  }

  lemma SameOwnersCons(c: seq<Doc>, d: Doc, rest: seq<Doc>)
    requires c != [] && d.id == c[0].id && d.tenantId == c[0].tenantId && SameOwners(c[1..], rest)
    ensures SameOwners(c, [d] + rest)
  {
    forall k | 0 <= k < |[d] + rest|
      ensures HasOwned(c, ([d] + rest)[k].id, ([d] + rest)[k].tenantId)
    {
      if k > 0 {
        HasOwnedTail(c, rest[k - 1].id, rest[k - 1].tenantId);
      }
    }
  }

  lemma SameOwnersTail(c: seq<Doc>, after: seq<Doc>)
    requires c != [] && SameOwners(c[1..], after)
    ensures SameOwners(c, after)
  {
    forall k | 0 <= k < |after|
      ensures HasOwned(c, after[k].id, after[k].tenantId)
    {
      HasOwnedTail(c, after[k].id, after[k].tenantId);
    }
  }

  lemma SameOwnersSelf(c: seq<Doc>)
    ensures SameOwners(c, c)
  {
  }

  lemma {:induction false} UpdateKeepsOwners(c: seq<Doc>, f: Filter, many: bool, changes: map<string, Value>)
    ensures SameOwners(c, UpdateHits(c, f, many, changes, None))
  {
    if c != [] {
      UpdateKeepsOwners(c[1..], f, many, changes);
      SameOwnersSelf(c[1..]);
      var after := UpdateHits(c, f, many, changes, None);
      SameOwnersCons(c, after[0], after[1..]);
      assert after == [after[0]] + after[1..];
    }
  }

  lemma {:induction false} DeleteKeepsOwners(c: seq<Doc>, f: Filter, many: bool)
    ensures SameOwners(c, DeleteHits(c, f, many))
  {
    if c != [] {
      DeleteKeepsOwners(c[1..], f, many);
      SameOwnersSelf(c[1..]);
      if Matches(c[0], f) {
        SameOwnersTail(c, DeleteHits(c, f, many));
      } else {
        SameOwnersCons(c, c[0], DeleteHits(c[1..], f, many));
      }
    }
  }

  lemma {:induction false} SaveKeepsOwners(c: seq<Doc>, id: Id, changes: map<string, Value>)
    ensures SameOwners(c, SaveHits(c, id, changes))
  {
    if c != [] {
      SaveKeepsOwners(c[1..], id, changes);
      var after := SaveHits(c, id, changes);
      SameOwnersCons(c, after[0], after[1..]);
      assert after == [after[0]] + after[1..];
    }
  }

  lemma {:induction false} DraftedIds(drafts: seq<Draft>, t: string)
    ensures |Drafted(drafts, t)| == |drafts|
    ensures forall k :: 0 <= k < |drafts| ==> Drafted(drafts, t)[k].id == drafts[k].id
  {
    if drafts != [] {
      DraftedIds(drafts[1..], t);
    }
  }

  /** After an operation under tenant t, a document was there before under the same owner,
      or is t's and new. */
  lemma EffectOwners(c: seq<Doc>, t: string, op: Op)
    requires op.Update? ==> op.moveTo.None?
    ensures var after := Effect(c, t, op).0;
            forall k :: 0 <= k < |after| ==>
              HasOwned(c, after[k].id, after[k].tenantId) || (after[k].id in NewIds(op) && after[k].tenantId == t)
  {
    SameOwnersSelf(c);
    match op
    case Update(f, many, changes, _) => UpdateKeepsOwners(c, Rewrite(f, t), many, changes);
    case Delete(f, many) => DeleteKeepsOwners(c, Rewrite(f, t), many);
    case Upsert(f, changes, _, _) => UpdateKeepsOwners(c, Rewrite(f, t), false, changes);
    case InsertMany(drafts) =>
      DraftedIds(drafts, t);
      DraftedIsTenants(drafts, t);
    case Save(id, _, changes) => SaveKeepsOwners(c, id, changes);
    case _ =>
  }

  /** A snapshot's owner stays true, whichever tenant operates after it was loaded. */
  lemma OwnerStays(c: seq<Doc>, t: string, op: Op, id: Id, own: string)
    requires LoadedFrom(c, id, own) && (op.Update? ==> op.moveTo.None?) && id !in NewIds(op)
    ensures LoadedFrom(Effect(c, t, op).0, id, own)
  {
    EffectOwners(c, t, op);
  }

  // ---- The index, seen from one tenant ----

  predicate Clear(d: Doc, c: seq<Doc>) {
    forall k :: 0 <= k < |c| ==> !SameIndexKey(d, c[k])
  }

  /** No document of a has the payment id of a document of b. */
  predicate Apart(a: seq<Doc>, b: seq<Doc>) {
    forall k :: 0 <= k < |a| ==> Clear(a[k], b)
  }

  lemma UniqueCons(d: Doc, c: seq<Doc>)
    ensures Unique([d] + c) <==> Clear(d, c) && Unique(c)
  {
    var all := [d] + c;
    assert forall k :: 0 <= k < |c| ==> all[k + 1] == c[k];
    if Unique(all) {
      forall k | 0 <= k < |c|
        ensures !SameIndexKey(d, c[k])
      {
        assert !SameIndexKey(all[0], all[k + 1]);
      }
      forall i, j | 0 <= i < j < |c|
        ensures !SameIndexKey(c[i], c[j])
      {
        assert !SameIndexKey(all[i + 1], all[j + 1]);
      }
    }
  }

  lemma ClearCons(d: Doc, e: Doc, c: seq<Doc>)
    ensures Clear(d, [e] + c) <==> !SameIndexKey(d, e) && Clear(d, c)
  {
    var all := [e] + c;
    assert forall k :: 0 <= k < |c| ==> all[k + 1] == c[k];
    if Clear(d, all) {
      assert !SameIndexKey(d, all[0]);
      forall k | 0 <= k < |c|
        ensures !SameIndexKey(d, c[k])
      {
        assert !SameIndexKey(d, all[k + 1]);
      }
    }
  }

  lemma ApartCons(d: Doc, a: seq<Doc>, b: seq<Doc>)
    ensures Apart([d] + a, b) <==> Clear(d, b) && Apart(a, b)
    ensures Apart(a, [d] + b) <==> Clear(d, a) && Apart(a, b)
  {
    var all := [d] + a;
    assert forall k :: 0 <= k < |a| ==> all[k + 1] == a[k];
    if Apart(all, b) {
      assert Clear(all[0], b);
      forall k | 0 <= k < |a|
        ensures Clear(a[k], b)
      {
        assert Clear(all[k + 1], b);
      }
    }
    forall k | 0 <= k < |a|
      ensures Clear(a[k], [d] + b) <==> !SameIndexKey(d, a[k]) && Clear(a[k], b)
    {
      ClearCons(a[k], d, b);
    }
  }

  lemma {:induction false} ClearSplit(d: Doc, c: seq<Doc>, t: string)
    ensures Clear(d, c) <==> Clear(d, Project(c, t)) && Clear(d, Rest(c, t))
  {
    if c != [] {
      ClearSplit(d, c[1..], t);
      assert c == [c[0]] + c[1..];
      ClearCons(d, c[0], c[1..]);
      if c[0].tenantId == t {
        ClearCons(d, c[0], Project(c[1..], t));
      } else {
        ClearCons(d, c[0], Rest(c[1..], t));
      }
    }
  }

  /** The index holds of a collection exactly when it holds of a tenant's documents and of
      the others', and the two have no payment id in common. */
  lemma {:induction false} UniqueSplit(c: seq<Doc>, t: string)
    ensures Unique(c) <==> Unique(Project(c, t)) && Unique(Rest(c, t)) && Apart(Project(c, t), Rest(c, t))
  {
    if c != [] {
      var own, others := Project(c[1..], t), Rest(c[1..], t);
      UniqueSplit(c[1..], t);
      assert c == [c[0]] + c[1..];
      UniqueCons(c[0], c[1..]);
      ClearSplit(c[0], c[1..], t);
      if c[0].tenantId == t {
        UniqueCons(c[0], own);
        ApartCons(c[0], own, others);
      } else {
        UniqueCons(c[0], others);
        ApartCons(c[0], own, others);
      }
    }
  }

  /** The operation, run on the tenant's documents alone, is rejected there already, or
      leaves none of them with a payment id another tenant holds. */
  predicate NoForeignClash(c: seq<Doc>, t: string, op: Op) {
    var own := Raw(Project(c, t), t, op).0;
    IsRead(op) || !Unique(own) || Apart(own, Rest(c, t))
  }

  lemma ClashIff(c: seq<Doc>, t: string, op: Op)
    requires Ordinary(c, op) && Unique(c)
    ensures var own := Raw(Project(c, t), t, op).0;
            Unique(Raw(c, t, op).0) <==> Unique(own) && Apart(own, Rest(c, t))
  {
    RawCommutes(c, t, op);
    RawKeepsRest(c, t, op);
    UniqueSplit(c, t);
    UniqueSplit(Raw(c, t, op).0, t);
  }

  lemma RawIsNoDuplicate(c: seq<Doc>, t: string, op: Op)
    ensures Raw(c, t, op).1 != Threw(DuplicateKey)
  {
  }

  /** An operation does to the tenant's documents, and returns, what it would on them alone,
      if and only if it gives none of them a payment id another tenant holds; otherwise the
      index rejects it and nothing changes. */
  lemma EffectCommutesIff(c: seq<Doc>, t: string, op: Op)
    requires Ordinary(c, op) && Unique(c)
    ensures NoForeignClash(c, t, op) <==>
              && Effect(Project(c, t), t, op).0 == Project(Effect(c, t, op).0, t)
              && Effect(Project(c, t), t, op).1 == Effect(c, t, op).1
    ensures !NoForeignClash(c, t, op) ==> Effect(c, t, op) == (c, Threw(DuplicateKey))
  {
    RawCommutes(c, t, op);
    ClashIff(c, t, op);
    RawIsNoDuplicate(Project(c, t), t, op);
  }

  lemma EffectElsewhere(c: seq<Doc>, u: string, op: Op, t: string)
    requires Ordinary(c, op) && u != t
    ensures Project(Effect(c, u, op).0, t) == Project(c, t)
  {
    RawElsewhere(c, u, op, t);
  }
}
