/**
 * Which documents of a set of day routes go to Xerox: the shipping
 * documents and counters computed for each route (`_compute_shipping`),
 * the record sets selected for sending (`_xerox_get_dayroute_rsets`) and
 * the one send per company (`xerox_send_files`).
 */
module XeroxShipping {
  import opened Wrappers
  import opened Ordered

  type RouteId = nat
  type CompanyId = nat
  type BatchId = nat

  /** An invoice and the code of its fiscal document class. */
  datatype Invoice = Invoice(id: nat, classCode: int)

  /**
   * A stock picking as the shipping searches see it: its id and the batch
   * picking it belongs to, if any. The report builder reads other fields
   * of the same record (its moves) and has its own projection.
   */
  datatype Picking = Picking(id: nat, batch: Option<BatchId>)

  /** A day route and its owning company; `company_id` may be empty. */
  datatype Route = Route(id: RouteId, company: Option<CompanyId>)

  /** The picking-type argument of the picking domain: none, or loading operations. */
  datatype PickingType = AnyType | Internal

  /**
   * The search domains the ETD document model builds, applied to their
   * record stores: for a force flag and a set of routes (or of candidate
   * batches), the records found. Their filtering rules are not part of
   * this model.
   */
  datatype Searches = Searches(
    invoices: (bool, set<RouteId>) -> set<Invoice>,
    pickings: (bool, set<RouteId>, PickingType) -> set<Picking>,
    batches: (bool, set<BatchId>) -> set<BatchId>)

  /** The documents found for a record set of routes. */
  datatype ShippingDocs = ShippingDocs(
    invoices: set<Invoice>,
    pickings: set<Picking>,
    batchpicks: set<BatchId>)

  /** The context keys read here: `xerox_force` and `xerox`. */
  datatype Context = Context(xeroxForce: bool, xerox: Option<int>)

  /** Invoice classes counted as shipping documents (facturas and boletas). */
  const TruckCodes: set<int> := {33, 39}

  /** The invoice class of route liquidations. */
  const LiquidationCode: int := 61

  // ---------------------------------------------------------------------
  // _compute_shipping
  // ---------------------------------------------------------------------

  /** `load_pickings.mapped('batch_id')`: the batches of the pickings that have one. */
  function BatchesOf(ps: set<Picking>): (r: set<BatchId>)
    ensures forall b :: b in r <==> exists p :: p in ps && p.batch == Some(b)
  {
    set p | p in ps && p.batch.Some? :: p.batch.value
  }

  /**
   * The three searches of `_compute_shipping` for the routes `routes`:
   * invoices, pickings, and the batches of the internal (loading) pickings
   * narrowed by the batch domain.
   */
  function FindShippingDocs(s: Searches, force: bool, routes: set<RouteId>): ShippingDocs {
    var loadPickings := s.pickings(force, routes, Internal);
    ShippingDocs(
      s.invoices(force, routes),
      s.pickings(force, routes, AnyType),
      s.batches(force, BatchesOf(loadPickings)))
  }

  function TruckInvoices(invoices: set<Invoice>): (r: set<Invoice>)
    ensures forall i :: i in r <==> i in invoices && i.classCode in TruckCodes
  {
    set i | i in invoices && i.classCode in TruckCodes
  }

  /** `xerox_pending_sign_count`. */
  function PendingSignCount(d: ShippingDocs): nat {
    |d.invoices| + |d.pickings| + |d.batchpicks|
  }

  /** `xerox_shipping_docs_count`: as the pending count, but only class 33 and 39 invoices. */
  function ShippingDocsCount(d: ShippingDocs): nat {
    |TruckInvoices(d.invoices)| + |d.pickings| + |d.batchpicks|
  }

  /**
   * The shipping-document count never exceeds the pending-signature count,
   * and equals it exactly when every invoice found is of class 33 or 39.
   */
  lemma ShippingWithinPending(d: ShippingDocs)
    ensures ShippingDocsCount(d) <= PendingSignCount(d)
    ensures ShippingDocsCount(d) == PendingSignCount(d) <==>
            forall i :: i in d.invoices ==> i.classCode in TruckCodes
  {
    var t := TruckInvoices(d.invoices);
    var rest := d.invoices - t;
    assert d.invoices == t + rest;
    assert |d.invoices| == |t| + |rest|;
    if exists i :: i in d.invoices && i.classCode !in TruckCodes {
      var i :| i in d.invoices && i.classCode !in TruckCodes;
      assert i in rest;
    } else {
      assert rest == {};
    }
  }

  /** With nothing found, both counters are zero. */
  lemma NothingFoundCountsZero(d: ShippingDocs)
    requires d.invoices == {} && d.pickings == {} && d.batchpicks == {}
    ensures PendingSignCount(d) == 0 && ShippingDocsCount(d) == 0
  {
  }

  /** A day route record and the fields `_compute_shipping` assigns. */
  class DayRoute {
    const id: RouteId
    const company: Option<CompanyId>
    var shippingInvoices: set<Invoice>
    var shippingPickings: set<Picking>
    var shippingBatchpicks: set<BatchId>
    var pendingSignCount: nat
    var shippingDocsCount: nat

    constructor (id: RouteId, company: Option<CompanyId>)
      ensures this.id == id && this.company == company
      ensures shippingInvoices == {} && shippingPickings == {} && shippingBatchpicks == {}
      ensures pendingSignCount == 0 && shippingDocsCount == 0
    {
      this.id := id;
      this.company := company;
      shippingInvoices := {};
      shippingPickings := {};
      shippingBatchpicks := {};
      pendingSignCount := 0;
      shippingDocsCount := 0;
    }

    /** The route's computed fields are those of the documents `d`. */
    ghost predicate Holds(d: ShippingDocs)
      reads this
    {
      && shippingInvoices == d.invoices
      && shippingPickings == d.pickings
      && shippingBatchpicks == d.batchpicks
      && pendingSignCount == PendingSignCount(d)
      && shippingDocsCount == ShippingDocsCount(d)
    }
  }

  /** `self.ids` for a record set of day route objects. */
  function IdsOf(routes: seq<DayRoute>): set<RouteId> {
    set r | r in routes :: r.id
  }

  /**
   * `_compute_shipping` over the record set `routes`: every route is given
   * the documents found for the whole record set (the domains are built
   * from the record set, not from the route at hand) and the two counters
   * of those documents.
   */
  method ComputeShipping(s: Searches, force: bool, routes: seq<DayRoute>)
    modifies set r | r in routes
    ensures forall r :: r in routes ==> r.Holds(FindShippingDocs(s, force, IdsOf(routes)))
    ensures forall r :: r in routes ==> r.shippingDocsCount <= r.pendingSignCount
  {
    ghost var found := FindShippingDocs(s, force, IdsOf(routes));
    ShippingWithinPending(found);
    var i := 0;
    while i < |routes|
      invariant 0 <= i <= |routes|
      invariant forall j :: 0 <= j < i ==> routes[j].Holds(found)
    {
      var route := routes[i];
      var ids := IdsOf(routes);
      route.shippingInvoices := s.invoices(force, ids);
      route.shippingPickings := s.pickings(force, ids, AnyType);
      var loadPickings := s.pickings(force, ids, Internal);
      var batchpicksPossible := BatchesOf(loadPickings);
      route.shippingBatchpicks := s.batches(force, batchpicksPossible);
      route.pendingSignCount :=
        |route.shippingInvoices| + |route.shippingPickings| + |route.shippingBatchpicks|;
      var truckInvoices := TruckInvoices(route.shippingInvoices);
      route.shippingDocsCount :=
        |truckInvoices| + |route.shippingPickings| + |route.shippingBatchpicks|;
      i := i + 1;
    }
  }

  // ---------------------------------------------------------------------
  // _xerox_get_dayroute_rsets
  // ---------------------------------------------------------------------

  /** The record sets handed to the Xerox file builder, keyed by model in the source. */
  datatype Rsets = Rsets(
    dayroutes: seq<Route>,
    invoices: set<Invoice>,
    pickings: set<Picking>,
    batchpicks: set<BatchId>)

  /** `self.ids` for a record set of day route values. */
  function RouteIds(routes: seq<Route>): set<RouteId> {
    set r | r in routes :: r.id
  }

  /**
   * `filtered('xerox_shipping_docs_count')` when every route's counter is
   * `count`: the routes whose counter is non-zero, in record-set order.
   */
  function WithDocs(routes: seq<Route>, count: nat): seq<Route> {
    if |routes| == 0 then []
    else
      var last := routes[|routes| - 1];
      WithDocs(routes[..|routes| - 1], count) + (if count != 0 then [last] else [])
  }

  /** One counter shared by all routes keeps them all or none. */
  lemma {:induction false} WithDocsAllOrNone(routes: seq<Route>, count: nat)
    ensures WithDocs(routes, count) == if count != 0 then routes else []
  {
    if |routes| != 0 {
      WithDocsAllOrNone(routes[..|routes| - 1], count);
      assert routes[..|routes| - 1] + [routes[|routes| - 1]] == routes;
    }
  }

  /**
   * `mapped` of a many2many field that every route holds with the value
   * `docs`: the union of that value over the routes.
   */
  function UnionOver<T>(routes: seq<Route>, docs: set<T>): set<T> {
    if |routes| == 0 then {}
    else UnionOver(routes[..|routes| - 1], docs) + docs
  }

  /** The union of one shared value is that value, or nothing over no routes. */
  lemma {:induction false} UnionOverShared<T>(routes: seq<Route>, docs: set<T>)
    ensures UnionOver(routes, docs) == if |routes| == 0 then {} else docs
  {
    if |routes| > 1 {
      UnionOverShared(routes[..|routes| - 1], docs);
    }
  }

  /** `invoices.filtered(lambda x: x.class_id.code == 61)`. */
  function LiquidationInvoices(invoices: set<Invoice>): (r: set<Invoice>)
    ensures forall i :: i in r <==> i in invoices && i.classCode == LiquidationCode
  {
    set i | i in invoices && i.classCode == LiquidationCode
  }

  /**
   * `_xerox_get_dayroute_rsets(force)` on the record set `self`, read in
   * the context `ctx`. The documents are those of the routes recomputed
   * with `xerox_force` set to `force`; the routes kept without `force`
   * are filtered on counters computed in the caller's own context.
   */
  function XeroxRsets(s: Searches, ctx: Context, self: seq<Route>, force: bool): Rsets {
    var ids := RouteIds(self);
    var forced := FindShippingDocs(s, force, ids);
    var ambient := FindShippingDocs(s, ctx.xeroxForce, ids);
    var withDocs := WithDocs(self, ShippingDocsCount(ambient));
    var presale := UnionOver(self, forced.invoices);
    var invoices := if ctx.xerox == Some(LiquidationCode) then LiquidationInvoices(presale) else presale;
    Rsets(
      if force then self else withDocs,
      invoices,
      UnionOver(self, forced.pickings),
      UnionOver(self, forced.batchpicks))
  }

  /** Forced, every route of the record set is selected. */
  lemma ForcedSelectsAll(s: Searches, ctx: Context, self: seq<Route>)
    ensures XeroxRsets(s, ctx, self, true).dayroutes == self
  {
  }

  /**
   * Not forced, the routes are all kept when the shared shipping-document
   * count in the caller's context is non-zero, and none otherwise.
   */
  lemma UnforcedAllOrNothing(s: Searches, ctx: Context, self: seq<Route>)
    ensures var count := ShippingDocsCount(FindShippingDocs(s, ctx.xeroxForce, RouteIds(self)));
            XeroxRsets(s, ctx, self, false).dayroutes == if count != 0 then self else []
  {
    WithDocsAllOrNone(self, ShippingDocsCount(FindShippingDocs(s, ctx.xeroxForce, RouteIds(self))));
  }

  /**
   * The documents selected: nothing for an empty record set; otherwise the
   * pickings and batches found with `force`, and the invoices found with
   * `force`, narrowed to class 61 exactly when the context asks for
   * liquidation files.
   */
  lemma SelectedDocuments(s: Searches, ctx: Context, self: seq<Route>, force: bool)
    ensures var r := XeroxRsets(s, ctx, self, force);
            var found := FindShippingDocs(s, force, RouteIds(self));
            if |self| == 0 then
              r.invoices == {} && r.pickings == {} && r.batchpicks == {}
            else
              && r.pickings == found.pickings
              && r.batchpicks == found.batchpicks
              && (ctx.xerox == Some(LiquidationCode) ==>
                    forall i :: i in r.invoices <==> i in found.invoices && i.classCode == LiquidationCode)
              && (ctx.xerox != Some(LiquidationCode) ==> r.invoices == found.invoices)
  {
    var found := FindShippingDocs(s, force, RouteIds(self));
    UnionOverShared(self, found.invoices);
    UnionOverShared(self, found.pickings);
    UnionOverShared(self, found.batchpicks);
  }

  /** In a liquidation context every invoice selected is of class 61. */
  lemma LiquidationInvoicesOnly(s: Searches, ctx: Context, self: seq<Route>, force: bool)
    requires ctx.xerox == Some(LiquidationCode)
    ensures forall i :: i in XeroxRsets(s, ctx, self, force).invoices ==> i.classCode == LiquidationCode
  {
  }

  /** The routes selected are routes of the record set. */
  lemma SelectedRoutesFromSelf(s: Searches, ctx: Context, self: seq<Route>, force: bool)
    ensures forall x :: x in XeroxRsets(s, ctx, self, force).dayroutes ==> x in self
  {
    WithDocsAllOrNone(self, ShippingDocsCount(FindShippingDocs(s, ctx.xeroxForce, RouteIds(self))));
  }

  // ---------------------------------------------------------------------
  // xerox_send_files
  // ---------------------------------------------------------------------

  /** One call to the file builder: a company and its record sets. */
  datatype SendCall = SendCall(company: CompanyId, rsets: Rsets)

  /** The companies set on the routes, in route order, with repetitions; an empty `company_id` gives nothing. */
  function CompaniesOf(routes: seq<Route>): (r: seq<CompanyId>)
    ensures forall c :: c in r <==> exists x :: x in routes && x.company == Some(c)
  {
    if |routes| == 0 then []
    else
      var init, last := routes[..|routes| - 1], routes[|routes| - 1];
      assert forall x :: x in routes <==> x in init || x == last by {
        assert routes == init + [last];
      }
      CompaniesOf(init) + (if last.company.Some? then [last.company.value] else [])
  }

  /** `mapped('company_id')`: the companies of the routes, each once, in first-seen order. */
  function Companies(routes: seq<Route>): seq<CompanyId> {
    Dedup(CompaniesOf(routes))
  }

  /** The routes of the record set that belong to `company`. */
  function CompanyRoutes(routes: seq<Route>, company: CompanyId): seq<Route> {
    if |routes| == 0 then []
    else
      var last := routes[|routes| - 1];
      CompanyRoutes(routes[..|routes| - 1], company) + (if last.company == Some(company) then [last] else [])
  }

  lemma {:induction false} CompanyRoutesElements(routes: seq<Route>, company: CompanyId)
    ensures forall x :: x in CompanyRoutes(routes, company) <==> x in routes && x.company == Some(company)
  {
    if |routes| != 0 {
      CompanyRoutesElements(routes[..|routes| - 1], company);
      assert routes == routes[..|routes| - 1] + [routes[|routes| - 1]];
    }
  }

  /** The call made for `company`: the record sets of that company's routes. */
  function CompanySend(s: Searches, ctx: Context, self: seq<Route>, force: bool, company: CompanyId): SendCall {
    SendCall(company, XeroxRsets(s, ctx, CompanyRoutes(self, company), force))
  }

  /** The calls made for `companies`, in order. */
  function SendPlan(s: Searches, ctx: Context, self: seq<Route>, force: bool, companies: seq<CompanyId>): (r: seq<SendCall>)
    ensures |r| == |companies|
  {
    if |companies| == 0 then []
    else
      SendPlan(s, ctx, self, force, companies[..|companies| - 1])
      + [CompanySend(s, ctx, self, force, companies[|companies| - 1])]
  }

  /** Planning one more company appends that company's call. */
  lemma SendPlanSnoc(s: Searches, ctx: Context, self: seq<Route>, force: bool, companies: seq<CompanyId>, i: nat)
    requires i < |companies|
    ensures SendPlan(s, ctx, self, force, companies[..i + 1]) ==
            SendPlan(s, ctx, self, force, companies[..i]) + [CompanySend(s, ctx, self, force, companies[i])]
  {
    assert companies[..i + 1][..i] == companies[..i];
  }

  /**
   * `xerox_send_files(force)`: one call per company of the record set, in
   * first-seen order, each with the record sets selected from that
   * company's routes. The calls are returned instead of being made.
   */
  method XeroxSendFiles(s: Searches, ctx: Context, self: seq<Route>, force: bool)
    returns (calls: seq<SendCall>)
    ensures calls == SendPlan(s, ctx, self, force, Companies(self))
  {
    var companies := Companies(self);
    calls := [];
    for i := 0 to |companies|
      invariant calls == SendPlan(s, ctx, self, force, companies[..i])
    {
      var company := companies[i];
      var dayroutes := CompanyRoutes(self, company);
      var rsets := XeroxRsets(s, ctx, dayroutes, force);
      SendPlanSnoc(s, ctx, self, force, companies, i);
      calls := calls + [SendCall(company, rsets)];
    }
    assert companies[..|companies|] == companies;
  }

  /** The plan makes, at each position, the call for the company at that position. */
  lemma {:induction false} SendPlanAt(s: Searches, ctx: Context, self: seq<Route>, force: bool, companies: seq<CompanyId>)
    ensures forall i :: 0 <= i < |companies| ==>
              SendPlan(s, ctx, self, force, companies)[i] == CompanySend(s, ctx, self, force, companies[i])
  {
    if |companies| != 0 {
      var init := companies[..|companies| - 1];
      SendPlanAt(s, ctx, self, force, init);
      assert forall i :: 0 <= i < |init| ==> init[i] == companies[i];
    }
  }

  /** The plan makes one call per company given, in the order given. */
  lemma SendPlanCompanies(s: Searches, ctx: Context, self: seq<Route>, force: bool, companies: seq<CompanyId>)
    ensures forall i :: 0 <= i < |companies| ==> SendPlan(s, ctx, self, force, companies)[i].company == companies[i]
  {
    SendPlanAt(s, ctx, self, force, companies);
  }


  /** Each call carries only routes of the record set that belong to its company. */
  lemma SendsOwnRoutesOnly(s: Searches, ctx: Context, self: seq<Route>, force: bool, i: nat)
    requires i < |Companies(self)|
    ensures var call := SendPlan(s, ctx, self, force, Companies(self))[i];
            forall x :: x in call.rsets.dayroutes ==> x in self && x.company == Some(call.company)
  {
    var cs := Companies(self);
    SendPlanAt(s, ctx, self, force, cs);
    SelectedRoutesFromSelf(s, ctx, CompanyRoutes(self, cs[i]), force);
    CompanyRoutesElements(self, cs[i]);
  }

  /** The companies of the record set are distinct and are exactly those set on its routes. */
  lemma CompaniesCover(self: seq<Route>)
    ensures NoDup(Companies(self))
    ensures forall x :: x in self && x.company.Some? ==> x.company.value in Companies(self)
    ensures forall c :: c in Companies(self) ==> exists x :: x in self && x.company == Some(c)
  {
    DedupFirstSeen(CompaniesOf(self));
  }

  /** Each route of the record set that has a company is sent with exactly one company's record sets. */
  lemma RoutesPartitioned(self: seq<Route>, x: Route)
    requires x in self && x.company.Some?
    ensures var cs := Companies(self);
            exists i :: 0 <= i < |cs| && x in CompanyRoutes(self, cs[i])
    ensures var cs := Companies(self);
            forall i, j ::
              0 <= i < |cs| && 0 <= j < |cs| && x in CompanyRoutes(self, cs[i]) && x in CompanyRoutes(self, cs[j])
              ==> i == j
  {
    var cs := Companies(self);
    DedupFirstSeen(CompaniesOf(self));
    assert x.company.value in cs;
    var i := FirstIndex(cs, x.company.value);
    forall c: CompanyId ensures x in CompanyRoutes(self, c) <==> x.company == Some(c) {
      CompanyRoutesElements(self, c);
    }
  }

  /** A route without a company is in no call: `mapped('company_id')` skips it and no company's filter matches it. */
  lemma CompanylessNeverSent(s: Searches, ctx: Context, self: seq<Route>, force: bool, x: Route)
    requires x.company == None
    ensures var calls := SendPlan(s, ctx, self, force, Companies(self));
            forall i :: 0 <= i < |calls| ==> x !in calls[i].rsets.dayroutes
  {
    forall i | 0 <= i < |Companies(self)|
      ensures x !in SendPlan(s, ctx, self, force, Companies(self))[i].rsets.dayroutes
    {
      SendsOwnRoutesOnly(s, ctx, self, force, i);
    }
  }
}
