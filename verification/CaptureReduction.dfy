/** Reduction: an interleaving in which no two flows in flight concern the same invoice
    has the same effect as some serial order of its requests. A capture takes its place
    in that order where it claims its row or returns early, an order where it inserts. */
module CaptureReduction {
  import opened Wrappers
  import opened CaptureProtocol
  import opened CaptureInvariants
  import opened CaptureSerial

  // ---- Exclusive runs ----

  predicate HasRow(pc: Pc) {
    pc.Resolved? || pc.Unseen? || pc.Holding? || Owing(pc)
  }

  /** Claimed, but its credit is not written yet. */
  predicate Owing(pc: Pc) {
    pc.Claimed? || pc.Loaded? || pc.Stamped?
  }

  /** The invoice a flow in flight concerns. */
  function Concern(f: Flow): Option<Id> {
    if HasRow(f.pc) then Some(f.pc.row.invoiceId)
    else if f.pc.Quoted? && f.req.Order? then Some(f.req.invoiceId)
    else None
  }

  /** The invoice a flow begins to concern with its first step. */
  ghost function Subject(s: Store, f: Flow, c: Choice): Option<Id>
    requires Answers(s, f, c)
  {
    if !f.pc.Fresh? then None
    else match f.req
      case Capture(_) => if c.resolved.Some? then Some(s.payments[c.resolved.value].invoiceId) else None
      case Order(_, iid) => Some(iid)
      case Bill(_) => None
  }

  /** The move starts no flow on an invoice another flow is busy with. A flow may die at any point. */
  ghost predicate Admitted(s: State, m: Move)
    requires Enabled(s, m)
  {
    m.crash ||
    (Subject(s.store, s.flows[m.tid], m.choice).Some? ==>
       forall u :: u in s.flows ==> Concern(s.flows[u]) != Subject(s.store, s.flows[m.tid], m.choice))
  }

  ghost predicate ExclusiveRun(s: State, ms: seq<Move>)
    decreases |ms|
  {
    && Run(s, ms)
    && (ms != [] ==>
          && ExclusiveRun(s, ms[..|ms| - 1])
          && Admitted(After(s, ms[..|ms| - 1]), ms[|ms| - 1]))
  }

  // ---- Snapshots are never stale ----

  predicate IsCurrent(s: Store, f: Flow) {
    match f.pc
    case Holding(pid, row) => pid in s.payments && s.payments[pid] == row
    case Claimed(pid, row) => pid in s.payments && s.payments[pid] == row
    case Loaded(pid, row, inv) =>
      pid in s.payments && s.payments[pid] == row && row.invoiceId in s.invoices && s.invoices[row.invoiceId] == inv
    case Stamped(pid, row, inv) =>
      pid in s.payments && s.payments[pid] == row && row.invoiceId in s.invoices && s.invoices[row.invoiceId] == inv
    case Quoted(inv) => f.req.Order? && f.req.invoiceId in s.invoices && s.invoices[f.req.invoiceId] == inv
    case _ => true
  }

  /** No two flows concern the same invoice. */
  ghost predicate Exclusive(flows: map<nat, Flow>) {
    forall u, v :: u in flows && v in flows && u != v && Concern(flows[u]).Some? ==>
                     Concern(flows[u]) != Concern(flows[v])
  }

  ghost predicate Tight(s: State) {
    && Inv(s)
    && (forall u :: u in s.flows ==> IsCurrent(s.store, s.flows[u]))
    && Exclusive(s.flows)
  }

  /** The rows a flow's next step may write are those of the invoice it concerns. */
  ghost predicate WritesOnly(s: Store, t: Store, f: Flow) {
    && (forall p :: p in s.payments ==>
          p in t.payments && (t.payments[p] == s.payments[p] || Some(s.payments[p].invoiceId) == Concern(f)))
    && (forall i :: i in s.invoices ==>
          i in t.invoices && (t.invoices[i] == s.invoices[i] || Some(i) == Concern(f)))
  }

  lemma CaptureWritesOnly(s: Store, d: Delivery, pc: Pc, c: Choice)
    requires FlowInv(s, Flow(Capture(d), pc)) && Answers(s, Flow(Capture(d), pc), c)
    ensures WritesOnly(s, NextCapture(s, d, pc, c).0, Flow(Capture(d), pc))
  {
  }

  lemma NextWritesOnly(s: Store, f: Flow, c: Choice)
    requires StoreInv(s) && FlowInv(s, f) && Answers(s, f, c)
    ensures WritesOnly(s, Next(s, f, c).0, f)
  {
    match f.req
    case Capture(d) => CaptureWritesOnly(s, d, f.pc, c);
    case _ =>
  }

  /** A step leaves its own flow's snapshots current. */
  lemma NextIsCurrent(s: Store, f: Flow, c: Choice)
    requires StoreInv(s) && FlowInv(s, f) && Answers(s, f, c) && IsCurrent(s, f)
    ensures var (t, pc) := Next(s, f, c);
            IsCurrent(t, Flow(f.req, pc))
  {
    if f.req.Capture? && HasRow(f.pc) {
      SavedUnread(f.pc.row, f.req.d);
    }
  }

  /** What a flow concerns after a step is what it concerned before, or what it starts with. */
  lemma NextConcern(s: Store, f: Flow, c: Choice)
    requires StoreInv(s) && FlowInv(s, f) && Answers(s, f, c)
    ensures var g := Flow(f.req, Next(s, f, c).1);
            Concern(g).Some? ==>
              Concern(g) == Concern(f) || (f.pc.Fresh? && Concern(g) == Subject(s, f, c))
  {
    if f.req.Capture? && f.pc.Unseen? && c.pending.Some? {
      RoutingIsUnique(s, f.req.d.orderId, f.pc.pid, c.pending.value);
    }
  }

  lemma OthersStayCurrent(s: Store, t: Store, f: Flow, g: Flow)
    requires FlowInv(s, g) && IsCurrent(s, g) && WritesOnly(s, t, f)
    requires Concern(g).Some? ==> Concern(g) != Concern(f)
    ensures IsCurrent(t, g)
  {
  }

  lemma ExclusiveStep(flows: map<nat, Flow>, t: nat, g: Flow)
    requires Exclusive(flows) && t in flows
    requires Concern(g).Some? ==>
               Concern(g) == Concern(flows[t]) || forall u :: u in flows ==> Concern(flows[u]) != Concern(g)
    ensures Exclusive(flows[t := g])
  {
  }

  lemma TightStep(s: State, m: Move)
    requires Tight(s) && Enabled(s, m) && Admitted(s, m)
    ensures Tight(Apply(s, m))
  {
    var f := s.flows[m.tid];
    var t := Apply(s, m);
    ApplyKeeps(s, m);
    if !m.crash {
      NextWritesOnly(s.store, f, m.choice);
      NextIsCurrent(s.store, f, m.choice);
      NextConcern(s.store, f, m.choice);
    }
    ExclusiveStep(s.flows, m.tid, t.flows[m.tid]);
    forall u | u in t.flows
      ensures IsCurrent(t.store, t.flows[u])
    {
      if u != m.tid {
        OthersStayCurrent(s.store, t.store, f, s.flows[u]);
      }
    }
  }

  /** A state before any flow has begun. */
  ghost predicate Initial(s: State) {
    StoreInv(s.store) && forall u :: u in s.flows ==> s.flows[u].pc == Fresh && RequestOk(s.flows[u].req)
  }

  /** At every point of an exclusive run, crashes included, no snapshot is stale. */
  lemma {:induction false} ExclusiveIsTight(s0: State, ms: seq<Move>)
    requires Initial(s0) && ExclusiveRun(s0, ms)
    ensures Tight(After(s0, ms))
    decreases |ms|
  {
    if ms != [] {
      ExclusiveIsTight(s0, ms[..|ms| - 1]);
      TightStep(After(s0, ms[..|ms| - 1]), ms[|ms| - 1]);
    }
  }
}
