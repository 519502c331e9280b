/** The per-endpoint role allow-lists of the HTTP server, gathered into one
    policy table. Every endpoint first rejects a caller without a user record
    or without a factory; endpoints with an allow-list also reject a role that
    is not on it. */
module Access {
  import opened Domain

  datatype Endpoint =
    | ProductsList | ProductCreate | ProductUpdate | ProductDelete
    | MaterialsList | MaterialCreate | MaterialUpdate | MaterialDelete
    | BomList | BomCreate | BomDelete
    | InventoryView | TransactionsList | TransactionCreate
    | OrdersList | OrderCreate | OrderStart | OrderComplete
    | DowntimeList | DowntimeCreate
    | AlertsList | AlertDismiss
    | DashboardView | CostReportsView

  /** None: any member of a factory may call the endpoint. */
  function AllowList(e: Endpoint): (r: Option<seq<Role>>)
    ensures r.Some? ==> OWNER in r.value
    ensures r.None? ==> e == AlertDismiss || !Mutates(e)
  {
    match e
    case ProductCreate | ProductUpdate | MaterialCreate | MaterialUpdate
       | BomCreate | BomDelete =>
      Some([OWNER, PLANT_MANAGER])
    case ProductDelete | MaterialDelete =>
      Some([OWNER])
    case TransactionCreate | OrderCreate | OrderStart | OrderComplete | DowntimeCreate =>
      Some([OWNER, PLANT_MANAGER, SUPERVISOR])
    case CostReportsView =>
      Some([OWNER, ACCOUNTANT, PLANT_MANAGER])
    case _ =>
      None
  }

  predicate Authorized(user: Option<User>, e: Endpoint)
    ensures Authorized(user, e) ==> user.Some? && user.value.factoryId.Some?
    ensures user.Some? && user.value.factoryId.Some? && user.value.role == OWNER ==> Authorized(user, e)
  {
    && user.Some?
    && user.value.factoryId.Some?
    && (AllowList(e).None? || user.value.role in AllowList(e).value)
  }

  /** Endpoints that write to the store (everything but the reads). */
  predicate Mutates(e: Endpoint)
  {
    !(e.ProductsList? || e.MaterialsList? || e.BomList? || e.InventoryView?
      || e.TransactionsList? || e.OrdersList? || e.DowntimeList? || e.AlertsList?
      || e.DashboardView? || e.CostReportsView?)
  }

  function FloorEndpoints(): set<Endpoint>
  {
    {TransactionCreate, OrderCreate, OrderStart, OrderComplete, DowntimeCreate}
  }

  function MasterDataEndpoints(): set<Endpoint>
  {
    {ProductCreate, ProductUpdate, ProductDelete, MaterialCreate, MaterialUpdate,
     MaterialDelete, BomCreate, BomDelete}
  }

  /** Nobody without a factory gets past any endpoint. */
  lemma NoFactoryNoAccess(u: User, e: Endpoint)
    requires u.factoryId.None?
    ensures !Authorized(Some(u), e) && !Authorized(None, e)
  {
  }

  /** Only an Owner may delete products and raw materials. */
  lemma OnlyOwnerDeletes(u: User, e: Endpoint)
    requires e == ProductDelete || e == MaterialDelete
    ensures Authorized(Some(u), e) <==> u.factoryId.Some? && u.role == OWNER
  {
  }

  /** The only write an Accountant may perform is dismissing an alert. */
  lemma AccountantOnlyDismisses(u: User, e: Endpoint)
    requires u.role == ACCOUNTANT && Mutates(e)
    ensures Authorized(Some(u), e) <==> u.factoryId.Some? && e == AlertDismiss
  {
  }

  /** A Supervisor may run the shop floor (ledger, orders, downtime) but may
      neither change master data nor read the cost reports. */
  lemma SupervisorScope(u: User, e: Endpoint)
    requires u.role == SUPERVISOR && u.factoryId.Some?
    ensures e in FloorEndpoints() ==> Authorized(Some(u), e)
    ensures e in MasterDataEndpoints() + {CostReportsView} ==> !Authorized(Some(u), e)
  {
  }
}
