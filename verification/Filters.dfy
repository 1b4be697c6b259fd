/** Query filters and what they match. A filter is the object a query carries: its
    entries must all hold. */
module Filters {

  type Id = nat

  datatype Value = Null | Str(s: string) | Num(n: int) | List(xs: seq<Value>)

  datatype Doc = Doc(id: Id, tenantId: string, fields: map<string, Value>)

  datatype Filter = Filter(entries: seq<Entry>)

  datatype Entry =
    | Field(name: string, cond: Cond)
    | And(fs: seq<Filter>)
    | Or(fs: seq<Filter>)
    | Nor(fs: seq<Filter>)

  datatype Cond =
    | Eq(v: Value)
    | In(vs: seq<Value>)
    | Ne(v: Value)
    | Gte(n: int)
    | Lt(n: int)
    | Exists(yes: bool)
    | Not(c: Cond)

  const TENANT: string := "tenantId"

  /** A field of a document; every document has a tenantId of type String. */
  function Get(d: Doc, name: string): Value {
    if name == TENANT then Str(d.tenantId)
    else if name in d.fields then d.fields[name] else Null
  }

  /** Equality on a field: an array field also matches by any of its elements, and an
      absent field matches null. */
  predicate MatchesValue(v: Value, x: Value) {
    v == x || (v.List? && x in v.xs)
  }

  predicate Holds(v: Value, c: Cond) {
    match c
    case Eq(x) => MatchesValue(v, x)
    case In(vs) => exists k :: 0 <= k < |vs| && MatchesValue(v, vs[k])
    case Ne(x) => !MatchesValue(v, x)
    case Gte(n) => v.Num? && v.n >= n
    case Lt(n) => v.Num? && v.n < n
    case Exists(yes) => (v != Null) == yes
    case Not(c) => !Holds(v, c)
  }

  predicate Matches(d: Doc, f: Filter) {
    forall k :: 0 <= k < |f.entries| ==> MatchesEntry(d, f.entries[k])
  }

  predicate MatchesEntry(d: Doc, e: Entry) {
    match e
    case Field(name, cond) => Holds(Get(d, name), cond)
    case And(fs) => forall k :: 0 <= k < |fs| ==> Matches(d, fs[k])
    case Or(fs) => exists k :: 0 <= k < |fs| && Matches(d, fs[k])
    case Nor(fs) => forall k :: 0 <= k < |fs| ==> !Matches(d, fs[k])
  }

  // ---- The plugin's rewrite: { ...filter, tenantId } ----

  predicate IsTenantEntry(e: Entry) {
    e.Field? && e.name == TENANT
  }

  /** The filter without its top-level tenantId key. */
  function Without(f: Filter): Filter {
    Filter(Others(f.entries))
  }

  function Others(es: seq<Entry>): (r: seq<Entry>)
    ensures |r| <= |es|
  {
    if es == [] then []
    else if IsTenantEntry(es[0]) then Others(es[1..]) else [es[0]] + Others(es[1..])
  }

  function OnlyTenant(t: string): Entry {
    Field(TENANT, Eq(Str(t)))
  }

  lemma OnlyTenantMeans(d: Doc, t: string)
    ensures Matches(d, Filter([OnlyTenant(t)])) <==> d.tenantId == t
  {
    assert [OnlyTenant(t)][0] == OnlyTenant(t);
    assert MatchesEntry(d, OnlyTenant(t)) <==> d.tenantId == t;
    if Matches(d, Filter([OnlyTenant(t)])) {
      assert MatchesEntry(d, Filter([OnlyTenant(t)]).entries[0]);
    }
  }

  function Rewrite(f: Filter, t: string): Filter {
    Filter(Others(f.entries) + [OnlyTenant(t)])
  }

  /** The rewritten filter matches a document exactly when the document is the tenant's
      and meets the original without its top-level tenantId key. */
  lemma RewriteMeans(d: Doc, f: Filter, t: string)
    ensures Matches(d, Rewrite(f, t)) <==> d.tenantId == t && Matches(d, Without(f))
  {
    var es := Others(f.entries);
    var all := es + [OnlyTenant(t)];
    assert all[|es|] == OnlyTenant(t);
    assert MatchesEntry(d, OnlyTenant(t)) <==> d.tenantId == t;
    if Matches(d, Rewrite(f, t)) {
      assert MatchesEntry(d, all[|es|]);
      forall k | 0 <= k < |es|
        ensures MatchesEntry(d, es[k])
      {
        assert all[k] == es[k];
      }
    }
  }

  /** What remains without that key is every other condition, whatever the key said. */
  lemma {:induction false} WithoutMeans(d: Doc, f: Filter)
    ensures Matches(d, Without(f)) <==>
              forall k :: 0 <= k < |f.entries| && !(f.entries[k].Field? && f.entries[k].name == "tenantId") ==>
                            MatchesEntry(d, f.entries[k])
    decreases |f.entries|
  {
    var es := f.entries;
    if es != [] {
      WithoutMeans(d, Filter(es[1..]));
      if !IsTenantEntry(es[0]) {
        MatchesCons(d, es[0], Others(es[1..]));
      }
      assert forall k :: 0 <= k < |es| - 1 ==> es[1..][k] == es[k + 1];
      if Matches(d, Without(f)) {
        forall k | 0 <= k < |es| && !IsTenantEntry(es[k])
          ensures MatchesEntry(d, es[k])
        {
          assert k == 0 || es[k] == es[1..][k - 1];
        }
      }
    }
  }

  lemma {:induction false} OthersMeans(d: Doc, es: seq<Entry>)
    requires forall k :: 0 <= k < |es| && IsTenantEntry(es[k]) ==> MatchesEntry(d, es[k])
    ensures Matches(d, Filter(Others(es))) <==> Matches(d, Filter(es))
  {
    if es != [] {
      OthersMeans(d, es[1..]);
      MatchesCons(d, es[0], es[1..]);
      assert es == [es[0]] + es[1..];
      if !IsTenantEntry(es[0]) {
        MatchesCons(d, es[0], Others(es[1..]));
      }
    }
  }

  lemma MatchesCons(d: Doc, e: Entry, es: seq<Entry>)
    ensures Matches(d, Filter([e] + es)) <==> MatchesEntry(d, e) && Matches(d, Filter(es))
  {
    var all := [e] + es;
    assert all[0] == e;
    if Matches(d, Filter(all)) {
      assert MatchesEntry(d, all[0]);
      forall k | 0 <= k < |es|
        ensures MatchesEntry(d, es[k])
      {
        assert all[k + 1] == es[k];
      }
    }
  }

  /** Never wider than asked: whatever matches the rewritten filter is the tenant's, and
      the tenant's own matches are kept when the caller named no other tenant. */
  lemma RewriteNarrows(d: Doc, f: Filter, t: string)
    requires forall k :: 0 <= k < |f.entries| && IsTenantEntry(f.entries[k]) ==> f.entries[k] == OnlyTenant(t)
    ensures Matches(d, Rewrite(f, t)) <==> d.tenantId == t && Matches(d, f)
  {
    RewriteMeans(d, f, t);
    if d.tenantId == t {
      OthersMeans(d, f.entries);
    }
  }

  // ---- What a scoped query can learn ----

  /** The filter with every condition on tenantId, however deep, decided for tenant t.
      An empty Or never holds, an empty And always does. */
  function Specialise(f: Filter, t: string): Filter {
    Filter(seq(|f.entries|, k requires 0 <= k < |f.entries| => SpecialiseEntry(f.entries[k], t)))
  }

  function SpecialiseEntry(e: Entry, t: string): Entry {
    match e
    case Field(name, cond) =>
      if name != TENANT then e else if Holds(Str(t), cond) then And([]) else Or([])
    case And(fs) => And(seq(|fs|, k requires 0 <= k < |fs| => Specialise(fs[k], t)))
    case Or(fs) => Or(seq(|fs|, k requires 0 <= k < |fs| => Specialise(fs[k], t)))
    case Nor(fs) => Nor(seq(|fs|, k requires 0 <= k < |fs| => Specialise(fs[k], t)))
  }

  /** The filter mentions tenantId nowhere. */
  predicate Blind(f: Filter) {
    forall k :: 0 <= k < |f.entries| ==> BlindEntry(f.entries[k])
  }

  predicate BlindEntry(e: Entry) {
    match e
    case Field(name, _) => name != TENANT
    case And(fs) => forall k :: 0 <= k < |fs| ==> Blind(fs[k])
    case Or(fs) => forall k :: 0 <= k < |fs| ==> Blind(fs[k])
    case Nor(fs) => forall k :: 0 <= k < |fs| ==> Blind(fs[k])
  }

  lemma {:induction false} SpecialiseMeans(d: Doc, f: Filter)
    ensures Blind(Specialise(f, d.tenantId))
    ensures Matches(d, Specialise(f, d.tenantId)) <==> Matches(d, f)
  {
    var g := Specialise(f, d.tenantId);
    forall k | 0 <= k < |f.entries|
      ensures BlindEntry(g.entries[k])
      ensures MatchesEntry(d, g.entries[k]) <==> MatchesEntry(d, f.entries[k])
    {
      SpecialiseEntryMeans(d, f.entries[k]);
    }
  }

  lemma {:induction false} SpecialiseEntryMeans(d: Doc, e: Entry)
    ensures BlindEntry(SpecialiseEntry(e, d.tenantId))
    ensures MatchesEntry(d, SpecialiseEntry(e, d.tenantId)) <==> MatchesEntry(d, e)
  {
    if !e.Field? {
      SpecialiseAll(d, e.fs);
      var gs := SpecialiseEntry(e, d.tenantId).fs;
      assert forall k :: 0 <= k < |e.fs| ==> gs[k] == Specialise(e.fs[k], d.tenantId);
      if k :| 0 <= k < |e.fs| && Matches(d, e.fs[k]) {
        assert Matches(d, gs[k]);
      }
    }
  }

  lemma {:induction false} SpecialiseAll(d: Doc, fs: seq<Filter>)
    ensures forall k :: 0 <= k < |fs| ==>
              && Blind(Specialise(fs[k], d.tenantId))
              && (Matches(d, Specialise(fs[k], d.tenantId)) <==> Matches(d, fs[k]))
  {
    forall k | 0 <= k < |fs|
      ensures Blind(Specialise(fs[k], d.tenantId))
      ensures Matches(d, Specialise(fs[k], d.tenantId)) <==> Matches(d, fs[k])
    {
      SpecialiseMeans(d, fs[k]);
    }
  }

  /** However its filter nests tenantId conditions, a scoped query is a query about the
      tenant's own documents that mentions no tenant at all. */
  lemma ScopedQueryIsBlind(d: Doc, f: Filter, t: string)
    ensures Blind(Specialise(Without(f), t))
    ensures Matches(d, Rewrite(f, t)) <==> d.tenantId == t && Matches(d, Specialise(Without(f), t))
  {
    RewriteMeans(d, f, t);
    SpecialiseMeans(d.(tenantId := t), Without(f));
    if d.tenantId == t {
      assert d.(tenantId := t) == d;
    }
  }
}
