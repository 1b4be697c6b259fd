/** What a scoped operation does to the shared collection and returns, document by document,
    said without the recursion that computes it. */
module Operations {
  import opened Wrappers
  import opened Filters
  import opened TenantPlugin
  import opened Isolation

  // ---- Lists and projections ----

  /** A selection has exactly the documents that match, as often as they occur. */
  lemma {:induction false} SelectCounts(c: seq<Doc>, f: Filter, d: Doc)
    ensures multiset(Select(c, f))[d] == if Matches(d, f) then multiset(c)[d] else 0
  {
    if c != [] {
      SelectCounts(c[1..], f, d);
      assert c == [c[0]] + c[1..];
      assert Matches(c[0], f) ==> Select(c, f) == [c[0]] + Select(c[1..], f);
    }
  }

  /** In their order. */
  lemma {:induction false} SelectConcat(a: seq<Doc>, b: seq<Doc>, f: Filter)
    ensures Select(a + b, f) == Select(a, f) + Select(b, f)
  {
    if a == [] {
      assert a + b == b;
    } else {
      SelectConcat(a[1..], b, f);
      assert a + b == [a[0]] + (a[1..] + b) && a == [a[0]] + a[1..];
      SelectCons(a[0], a[1..] + b, f);
      SelectCons(a[0], a[1..], f);
    }
  }

  lemma SelectCons(d: Doc, c: seq<Doc>, f: Filter)
    ensures Select([d] + c, f) == (if Matches(d, f) then [d] else []) + Select(c, f)
  {
    assert ([d] + c)[1..] == c;
  }

  /** The first match is the document before which nothing matches. */
  lemma {:induction false} FirstIs(c: seq<Doc>, f: Filter)
    ensures First(Select(c, f)) == [] <==> forall k :: 0 <= k < |c| ==> !Matches(c[k], f)
    ensures forall k :: Hit(c, k, f, false) ==> First(Select(c, f)) == [c[k]]
  {
    if c != [] {
      FirstIs(c[1..], f);
      assert forall k :: 1 <= k < |c| ==> c[k] == c[1..][k - 1];
      forall k | Hit(c, k, f, false)
        ensures First(Select(c, f)) == [c[k]]
      {
        if k > 0 {
          HitTail(c, k, f, false);
        }
      }
    }
  }

  /** The operation takes the k-th document: it matches, and is the first unless all are taken. */
  predicate Hit(c: seq<Doc>, k: int, f: Filter, many: bool) {
    0 <= k < |c| && Matches(c[k], f) && (many || forall j :: 0 <= j < k ==> !Matches(c[j], f))
  }

  lemma HitTail(c: seq<Doc>, k: int, f: Filter, many: bool)
    requires 0 < k < |c|
    ensures Hit(c, k, f, many) <==> (many || !Matches(c[0], f)) && Hit(c[1..], k - 1, f, many)
  {
    assert forall j :: 1 <= j < |c| ==> c[j] == c[1..][j - 1];
    if Hit(c[1..], k - 1, f, many) && !many && !Matches(c[0], f) {
      forall j | 0 <= j < k
        ensures !Matches(c[j], f)
      {
        if j > 0 {
          assert !Matches(c[1..][j - 1], f);
        }
      }
    }
    if Hit(c, k, f, many) && !many {
      forall j | 0 <= j < k - 1
        ensures !Matches(c[1..][j], f)
      {
        assert c[1..][j] == c[j + 1];
      }
    }
  }

  lemma {:induction false} UpdateAt(c: seq<Doc>, f: Filter, many: bool, changes: map<string, Value>,
                                    moveTo: Option<string>, k: nat)
    requires k < |c|
    ensures var after := UpdateHits(c, f, many, changes, moveTo);
            |after| == |c| && after[k] == if Hit(c, k, f, many) then Changing(c[k], changes, moveTo) else c[k]
    decreases |c|
  {
    if k > 0 {
      HitTail(c, k, f, many);
      UpdateAt(c[1..], f, many, changes, moveTo, k - 1);
    } else if |c| > 1 {
      UpdateAt(c[1..], f, many, changes, moveTo, 0);
    }
  }

  lemma {:induction false} DeleteCounts(c: seq<Doc>, f: Filter, d: Doc)
    ensures multiset(DeleteHits(c, f, true))[d] == if Matches(d, f) then 0 else multiset(c)[d]
  {
    if c != [] {
      DeleteCounts(c[1..], f, d);
      assert c == [c[0]] + c[1..];
      assert !Matches(c[0], f) ==> DeleteHits(c, f, true) == [c[0]] + DeleteHits(c[1..], f, true);
    }
  }

  lemma {:induction false} DeleteConcat(a: seq<Doc>, b: seq<Doc>, f: Filter)
    ensures DeleteHits(a + b, f, true) == DeleteHits(a, f, true) + DeleteHits(b, f, true)
  {
    if a == [] {
      assert a + b == b;
    } else {
      DeleteConcat(a[1..], b, f);
      assert a + b == [a[0]] + (a[1..] + b) && a == [a[0]] + a[1..];
      DeleteCons(a[0], a[1..] + b, f);
      DeleteCons(a[0], a[1..], f);
    }
  }

  lemma DeleteCons(d: Doc, c: seq<Doc>, f: Filter)
    ensures DeleteHits([d] + c, f, true) == (if Matches(d, f) then [] else [d]) + DeleteHits(c, f, true)
  {
    assert ([d] + c)[1..] == c;
  }

  lemma {:induction false} DeleteFirst(c: seq<Doc>, f: Filter)
    ensures (forall k :: 0 <= k < |c| ==> !Matches(c[k], f)) ==> DeleteHits(c, f, false) == c
    ensures forall k :: Hit(c, k, f, false) ==> DeleteHits(c, f, false) == c[..k] + c[k + 1..]
  {
    if c != [] {
      DeleteFirst(c[1..], f);
      assert c == [c[0]] + c[1..];
      assert forall k :: 1 <= k < |c| ==> c[k] == c[1..][k - 1];
      forall k | Hit(c, k, f, false)
        ensures DeleteHits(c, f, false) == c[..k] + c[k + 1..]
      {
        if k > 0 {
          HitTail(c, k, f, false);
          assert c[..k] == [c[0]] + c[1..][..k - 1] && c[k + 1..] == c[1..][k..];
        }
      }
    }
  }

  /** A projection has exactly the tenant's documents, and the rest all others. */
  lemma {:induction false} ProjectCounts(c: seq<Doc>, t: string, d: Doc)
    ensures multiset(Project(c, t))[d] == if d.tenantId == t then multiset(c)[d] else 0
    ensures multiset(Rest(c, t))[d] == if d.tenantId == t then 0 else multiset(c)[d]
  {
    if c != [] {
      ProjectCounts(c[1..], t, d);
      assert c == [c[0]] + c[1..];
      if c[0].tenantId == t {
        assert Project(c, t) == [c[0]] + Project(c[1..], t);
      } else {
        assert Rest(c, t) == [c[0]] + Rest(c[1..], t);
      }
    }
  }

  // ---- The index ----

  /** Two documents carry one payment id. */
  predicate SharesPaymentId(c: seq<Doc>) {
    exists i, j :: 0 <= i < j < |c| && "gatewayPaymentId" in c[i].fields && "gatewayPaymentId" in c[j].fields
                && c[i].fields["gatewayPaymentId"] == c[j].fields["gatewayPaymentId"] != Null
  }

  /** A write is rejected, and changes nothing, exactly when two documents of any tenants would
      carry one payment id afterwards. */
  lemma RejectedIff(c: seq<Doc>, t: string, op: Op)
    requires !IsRead(op)
    ensures Effect(c, t, op) == if SharesPaymentId(Raw(c, t, op).0) then (c, Threw(DuplicateKey)) else Raw(c, t, op)
  {
    var after := Raw(c, t, op).0;
    if i, j :| 0 <= i < j < |after| && SameIndexKey(after[i], after[j]) {
      assert SharesPaymentId(after);
    }
  }

  // ---- Reads ----

  /** The tenant's document, and it meets the request without its top-level tenantId key. */
  predicate Meets(d: Doc, t: string, f: Filter) {
    d.tenantId == t && Matches(d, Without(f))
  }

  /** Document k is taken by an operation of tenant t: the first that meets the request,
      or any that does. */
  predicate Taken(c: seq<Doc>, k: int, t: string, f: Filter, many: bool) {
    0 <= k < |c| && Meets(c[k], t, f) && (many || forall j :: 0 <= j < k ==> !Meets(c[j], t, f))
  }

  lemma TakenIsHit(c: seq<Doc>, t: string, f: Filter, many: bool)
    ensures forall k :: Taken(c, k, t, f, many) <==> Hit(c, k, Rewrite(f, t), many)
    ensures forall k :: 0 <= k < |c| ==> (Meets(c[k], t, f) <==> Matches(c[k], Rewrite(f, t)))
  {
    forall d
      ensures Meets(d, t, f) <==> Matches(d, Rewrite(f, t))
    {
      RewriteMeans(d, f, t);
    }
  }

  /** A find returns exactly the tenant's documents that meet the request. */
  lemma FindReturns(c: seq<Doc>, t: string, f: Filter, d: Doc)
    ensures var (after, out) := Raw(c, t, Find(f));
            after == c && out.Found? && multiset(out.docs)[d] == if Meets(d, t, f) then multiset(c)[d] else 0
  {
    SelectCounts(c, Rewrite(f, t), d);
    RewriteMeans(d, f, t);
  }

  /** A findOne returns the first of them, and nothing exactly when there is none. */
  lemma FindOneReturns(c: seq<Doc>, t: string, f: Filter)
    ensures var (after, out) := Raw(c, t, FindOne(f));
            && after == c && out.Found?
            && (out.docs == [] <==> forall k :: 0 <= k < |c| ==> !Meets(c[k], t, f))
            && (forall k :: Taken(c, k, t, f, false) ==> out.docs == [c[k]])
  {
    FirstIs(c, Rewrite(f, t));
    TakenIsHit(c, t, f, false);
  }

  /** A pipeline runs its stages one after the other on the tenant's documents. */
  lemma AggregateReturns(c: seq<Doc>, t: string, stages: seq<Stage>, s: Stage)
    ensures Raw(c, t, Aggregate([])) == (c, Found(Project(c, t)))
    ensures Raw(c, t, Aggregate(stages)).1.Found? && Raw(c, t, Aggregate(stages + [s])).0 == c
    ensures s.Match? ==>
              Raw(c, t, Aggregate(stages + [s])).1 == Found(Select(Raw(c, t, Aggregate(stages)).1.docs, s.f))
    ensures s.Other? ==>
              Raw(c, t, Aggregate(stages + [s])).1 == Found(s.run(Raw(c, t, Aggregate(stages)).1.docs))
  {
    PipelineScoped([], c, t);
    PipelineScoped(stages, c, t);
    PipelineScoped(stages + [s], c, t);
    StageLast(stages, s, Project(c, t));
  }

  lemma {:induction false} StageLast(stages: seq<Stage>, s: Stage, c: seq<Doc>)
    ensures RunPipeline(stages + [s], c) == RunStage(s, RunPipeline(stages, c))
    decreases |stages|
  {
    if stages == [] {
      assert (stages + [s])[1..] == [];
    } else {
      StageLast(stages[1..], s, RunStage(stages[0], c));
      assert (stages + [s])[1..] == stages[1..] + [s];
    }
  }

  // ---- Writes ----

  /** The document with its changes, and nothing else different. */
  ghost predicate IsChanged(was: Doc, now: Doc, changes: map<string, Value>, owner: string) {
    && now.id == was.id && now.tenantId == owner
    && (forall key :: key in now.fields <==> key in was.fields || key in changes)
    && (forall key :: key in now.fields ==>
          now.fields[key] == if key in changes then changes[key] else was.fields[key])
  }

  /** An update changes the documents it takes, each in place, and no other. */
  lemma UpdateDoes(c: seq<Doc>, t: string, f: Filter, many: bool, changes: map<string, Value>, moveTo: Option<string>)
    ensures var (after, out) := Raw(c, t, Update(f, many, changes, moveTo));
            && |after| == |c|
            && (forall k :: 0 <= k < |c| ==>
                  if Taken(c, k, t, f, many)
                  then IsChanged(c[k], after[k], changes, if moveTo.Some? then moveTo.value else c[k].tenantId)
                  else after[k] == c[k])
            && out == Changed(|Raw(c, t, if many then Find(f) else FindOne(f)).1.docs|)
  {
    TakenIsHit(c, t, f, many);
    forall k | 0 <= k < |c|
      ensures var after := Raw(c, t, Update(f, many, changes, moveTo)).0;
              |after| == |c| && after[k] == if Taken(c, k, t, f, many) then Changing(c[k], changes, moveTo) else c[k]
    {
      UpdateAt(c, Rewrite(f, t), many, changes, moveTo, k);
    }
  }

  /** A deleteMany removes the documents that meet the request, and no other. */
  lemma DeleteManyDoes(c: seq<Doc>, t: string, f: Filter, d: Doc)
    ensures var (after, out) := Raw(c, t, Delete(f, true));
            && multiset(after)[d] == (if Meets(d, t, f) then 0 else multiset(c)[d])
            && out == Changed(|Raw(c, t, Find(f)).1.docs|)
  {
    DeleteCounts(c, Rewrite(f, t), d);
    RewriteMeans(d, f, t);
  }

  /** A deleteOne removes the first of them, if there is one. */
  lemma DeleteOneDoes(c: seq<Doc>, t: string, f: Filter, k: nat)
    ensures Taken(c, k, t, f, false) ==> Raw(c, t, Delete(f, false)) == (c[..k] + c[k + 1..], Changed(1))
    ensures (forall j :: 0 <= j < |c| ==> !Meets(c[j], t, f)) ==> Raw(c, t, Delete(f, false)) == (c, Changed(0))
  {
    TakenIsHit(c, t, f, false);
    DeleteFirst(c, Rewrite(f, t));
    FirstIs(c, Rewrite(f, t));
  }

  /** The documents a deleteMany leaves are in their old order. */
  lemma DeleteKeepsOrder(a: seq<Doc>, b: seq<Doc>, t: string, f: Filter)
    ensures Raw(a + b, t, Delete(f, true)).0 == Raw(a, t, Delete(f, true)).0 + Raw(b, t, Delete(f, true)).0
  {
    DeleteConcat(a, b, Rewrite(f, t));
  }

  /** An upsert changes the first document that meets its filter, as an updateOne does. */
  lemma UpsertUpdates(c: seq<Doc>, t: string, f: Filter, changes: map<string, Value>, insert: map<string, Value>,
                      id: Id)
    requires exists k :: 0 <= k < |c| && Meets(c[k], t, f)
    ensures Raw(c, t, Upsert(f, changes, insert, id)) == Raw(c, t, Update(f, false, changes, None))
    ensures Raw(c, t, Upsert(f, changes, insert, id)).1 == Changed(1)
  {
    FirstIs(c, Rewrite(f, t));
    TakenIsHit(c, t, f, false);
  }

  /** When none does it adds one, the tenant's, with the inserted fields and the changes over them. */
  lemma UpsertInserts(c: seq<Doc>, t: string, f: Filter, changes: map<string, Value>, insert: map<string, Value>,
                      id: Id)
    requires forall k :: 0 <= k < |c| ==> !Meets(c[k], t, f)
    ensures var (after, out) := Raw(c, t, Upsert(f, changes, insert, id));
            && out == Inserted && |after| == |c| + 1 && after[..|c|] == c
            && IsChanged(Doc(id, t, insert), after[|c|], changes, t)
  {
    FirstIs(c, Rewrite(f, t));
    TakenIsHit(c, t, f, false);
  }

  /** A create adds the tenant's document, unless the draft names another tenant. */
  lemma CreateDoes(c: seq<Doc>, t: string, draft: Draft)
    requires t != ""
    ensures Raw(c, t, Create(draft)) == if draft.own in {None, Some(""), Some(t)}
                                        then (c + [Doc(draft.id, t, draft.fields)], Inserted)
                                        else (c, Threw(ForeignTenant))
  {
  }

  /** An insertMany adds one document of the tenant for each draft, whatever the drafts say. */
  lemma InsertManyDoes(c: seq<Doc>, t: string, drafts: seq<Draft>)
    ensures var (after, out) := Raw(c, t, InsertMany(drafts));
            && out == Inserted && |after| == |c| + |drafts| && after[..|c|] == c
            && forall k :: 0 <= k < |drafts| ==> after[|c| + k] == Doc(drafts[k].id, t, drafts[k].fields)
  {
    DraftedAre(drafts, t);
  }

  lemma {:induction false} DraftedAre(drafts: seq<Draft>, t: string)
    ensures |Drafted(drafts, t)| == |drafts|
    ensures forall k :: 0 <= k < |drafts| ==> Drafted(drafts, t)[k] == Doc(drafts[k].id, t, drafts[k].fields)
  {
    if drafts != [] {
      DraftedAre(drafts[1..], t);
    }
  }

  /** A save changes the document with its id, and is refused when that was loaded from
      another tenant. */
  lemma SaveDoes(c: seq<Doc>, t: string, id: Id, own: string, changes: map<string, Value>)
    ensures var (after, out) := Raw(c, t, Save(id, own, changes));
            if own !in {"", t} then after == c && out == Threw(ForeignTenant)
            else
              && out == Changed(1) && |after| == |c|
              && forall k :: 0 <= k < |c| ==>
                   if c[k].id == id then IsChanged(c[k], after[k], changes, c[k].tenantId) else after[k] == c[k]
  {
    SavedAt(c, id, changes);
  }

  lemma {:induction false} SavedAt(c: seq<Doc>, id: Id, changes: map<string, Value>)
    ensures var after := SaveHits(c, id, changes);
            && |after| == |c|
            && forall k :: 0 <= k < |c| ==> after[k] == if c[k].id == id then Changing(c[k], changes, None) else c[k]
  {
    if c != [] {
      SavedAt(c[1..], id, changes);
    }
  }
}
