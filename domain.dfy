/** Entities of one factory's partition of the key-value store, and the
    error outcomes of the HTTP handlers. Every server-side id is produced by
    the id generator; it is modelled as a natural number. Timestamps are
    milliseconds since the epoch (UTC); quantities and money are reals. */
module Domain {

  datatype Option<+T> = None | Some(value: T)

  type Id = nat
  type Time = int

  /** Role names are free text: signup stores whatever role the request
      carries, so the four known roles are just constants. */
  type Role = string
  const OWNER: Role := "Owner"
  const PLANT_MANAGER: Role := "Plant Manager"
  const SUPERVISOR: Role := "Supervisor"
  const ACCOUNTANT: Role := "Accountant"

  /** The authenticated caller, as the identity lookup returns it. */
  datatype User = User(role: Role, factoryId: Option<Id>)

  datatype Product = Product(id: Id, name: string, unit: string, sellingPrice: real)

  datatype RawMaterial = RawMaterial(id: Id, name: string, unit: string, reorderPoint: real)

  datatype BomEntry = BomEntry(id: Id, productId: Id, rawMaterialId: Id, qtyPerUnit: real)

  datatype TxType = Purchase | Adjustment | Consumption

  /** One row of the append-only inventory ledger; qty is signed. */
  datatype Transaction = Transaction(
    id: Id, rawMaterialId: Id, txType: TxType, qty: real, unitCost: real,
    relatedOrderId: Option<Id>, timestamp: Time)

  datatype OrderStatus = Scheduled | InProgress | Completed

  datatype ProductionOrder = ProductionOrder(
    id: Id, productId: Id, targetQty: real, actualProducedQty: real,
    status: OrderStatus, scheduledStart: Option<Time>,
    actualStart: Option<Time>, actualEnd: Option<Time>,
    createdAt: Time, updatedAt: Option<Time>)

  /** The cost basis of one material consumed by one completed order. */
  datatype MaterialUsage = MaterialUsage(
    id: Id, productionOrderId: Id, rawMaterialId: Id, qtyUsed: real,
    unitCost: real, createdAt: Time)

  /** A missing or empty start or end time is None. */
  datatype DowntimeEvent = DowntimeEvent(
    id: Id, productionOrderId: Id, reason: string,
    startTime: Option<Time>, endTime: Option<Time>, createdAt: Time)

  datatype AlertType = LowStock | NegativeMargin
  datatype Severity = Low | Medium | High

  datatype Alert = Alert(
    id: Id, alertType: AlertType, severity: Severity,
    materialId: Option<Id>, createdAt: Time)

  datatype Error =
    | Unauthorized
    | NotFound
    | InvalidTransition
    | AlreadyCompleted
    | InsufficientStock(materialId: Id, required: real, available: real)

  datatype Result<+T> = Ok(value: T) | Err(error: Error)

  /** The HTTP status each handler error is answered with. */
  function HttpStatus(e: Error): (code: nat)
    ensures code == 401 <==> e.Unauthorized?
    ensures code == 404 <==> e.NotFound?
    ensures code == 400 <==> (e.InvalidTransition? || e.AlreadyCompleted? || e.InsufficientStock?)
  {
    match e
    case Unauthorized => 401
    case NotFound => 404
    case _ => 400
  }

  /** Position in the forward-only lifecycle scheduled -> in_progress -> completed. */
  function StatusRank(s: OrderStatus): nat
  {
    match s
    case Scheduled => 0
    case InProgress => 1
    case Completed => 2
  }
}
