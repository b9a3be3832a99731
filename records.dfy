/**
  The documents of the fleet store: machines, supplies, preventive-maintenance kit
  items, maintenance and usage history entries, and the open operation job; plus
  the error conditions the page handlers report instead of writing.
 */
module Records {

  datatype Option<+T> = None | Some(value: T)

  datatype Result<+T> = Ok(value: T) | Err(error: Error)

  /** The four preventive-maintenance kinds. */
  datatype PmType = PM1 | PM2 | PM3 | PM4
  {
    function Name(): string
    {
      match this
      case PM1 => "PM1"
      case PM2 => "PM2"
      case PM3 => "PM3"
      case PM4 => "PM4"
    }
  }

  /** `last_pm_type`: 'Nuevo' on a machine that has had no maintenance yet. */
  datatype LastPm = Nuevo | Performed(pm: PmType)

  /**
    A machine document. `seqIndex` is `next_pm_sequence_index`, which a document
    may lack (`None`). The picture fields and the serial number are not modelled.
   */
  datatype Machine = Machine(
    id: string,
    name: string,
    model: string,
    plate: string,
    currentHm: int,
    fuelLevel: int,
    nextPmType: PmType,
    nextPmDueHm: int,
    lastPmType: LastPm,
    lastPmHm: int,
    isInUse: bool,
    seqIndex: Option<int>)

  datatype Supply = Supply(id: string, name: string, stock: int, unit: string)

  /** One entry of a PM kit: a supply, the quantity the kit uses, and whether it is mandatory. */
  datatype KitItem = KitItem(supplyId: string, name: string, qty: int, isMandatory: bool)

  /** One line of the supplies consumed by a maintenance event. */
  datatype UsedSupply = UsedSupply(id: string, name: string, qty: int, isMandatory: bool)

  /** 'Programado' (scheduled PM) or 'No Programado' (corrective). */
  datatype MaintenanceType = Programado | NoProgramado

  /** A compressed picture, as the data URL the page stores. */
  type Image = string

  datatype MaintenanceRecord = MaintenanceRecord(
    machineId: string,
    machineName: string,
    kind: MaintenanceType,
    description: string,
    hmDoneAt: int,
    fuelLevel: int,
    suppliesUsed: seq<UsedSupply>,
    images: seq<Image>)

  /** The operation job held open by the operator; `startTime` is in milliseconds. */
  datatype Job = Job(
    machineId: string,
    machineName: string,
    startHm: int,
    startTime: int,
    operator: string,
    startFuel: int)

  datatype UsageRecord = UsageRecord(
    job: Job,
    endTime: int,
    endHm: int,
    endFuel: int,
    hoursAdded: int,
    realDurationText: string)

  /** Why a handler returned without writing. */
  datatype Error =
    | HourMeterBackwards                      // 'Horómetro incorrecto'
    | MissingMandatorySupply(itemName: string) // 'Falta suministro obligatorio'
    | SupplyNotInInventory(itemName: string)
    | InsufficientStock(itemName: string, stock: int)
    | AlreadyListed                           // 'Item ya en lista'
    | TooManyImages                           // 'Máximo 3 imágenes permitidas'
    | NoSupplySelected                        // 'Selecciona un suministro'
    | NoPermission                            // 'No tienes permisos para operar'
    | JobAlreadyActive                        // 'Ya tienes un trabajo activo'
    | BlockedOverdue                          // 'Bloqueado: PM Vencido ...'
    | InvalidEndHourMeter                     // 'HM Final inválido'
    | InvalidFuelLevel                        // 'Nivel de combustible inválido'
    | HighFuelUseNotConfirmed                 // the operator declined the confirmation
    | InvalidHourMeter                        // 'Horómetro inválido'
    | FuelNotIncreased                        // refuel must raise the level
    | InvalidQuantity                         // 'Cantidad inválida'
    | Ignored                                 // the handler returns silently
    | WriteFailed                             // the store refused the write

  datatype Outcome = Done | Rejected(error: Error)
}
