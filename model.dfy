/**
 * Records and request types of the yard-planning service, and the errors its
 * operations report.
 *
 * Container heights are measured in tenths of a foot, so the two standard
 * heights 8.6 ft and 9.6 ft are 86 and 96; any other height value stands for
 * any other floating-point height.  Store-assigned ids of containers and all
 * timestamps are not part of the model.
 */
module Model {

  datatype Option<+T> = None | Some(value: T)

  /** The value of an operation that returns a result or an error. */
  datatype Result<+T> = Ok(value: T) | Err(error: Error)

  /** The value of an operation that returns only an error, or nothing. */
  datatype Outcome = Success | Failure(error: Error)

  datatype Error =
    | InvalidSize
    | InvalidHeight
    | InvalidType
    | InvalidSlot(maxSlot: int)
    | InvalidRow(maxRow: int)
    | InvalidTier(maxTier: int)
    | YardNotFound(yardCode: string)
    | BlockNotFound(blockCode: string)
    | ContainerNotFound(containerNumber: string)
    | NoAvailablePosition
    | NumberRequired
    | AlreadyPlaced(placedNumber: string)
    | PositionOccupied
    | TierBelowEmpty(tier: int)
    | ContainerBlocked

  /** Heights, in tenths of a foot. */
  const StandardHeight: int := 86
  const HighCubeHeight: int := 96

  datatype Yard = Yard(id: int, code: string)

  /** A block of a yard; slots, rows and tiers are numbered from 1 to the bound. */
  datatype Block = Block(id: int, yardId: int, code: string, maxSlot: int, maxRow: int, maxTier: int)

  /** A placement plan: a slot-by-row rectangle of a block reserved for one container spec. */
  datatype Plan = Plan(
    id: int, blockId: int,
    slotStart: int, slotEnd: int, rowStart: int, rowEnd: int,
    size: int, height: int, containerType: string)

  /** An active container record; a size-40 container also covers slot + 1. */
  datatype Container = Container(
    number: string, yardId: int, blockId: int,
    slot: int, row: int, tier: int,
    size: int, height: int, containerType: string)

  datatype Position = Position(block: string, slot: int, row: int, tier: int)

  /** One (slot, row, tier) cell of a block. */
  datatype Cell = Cell(slot: int, row: int, tier: int)

  datatype SuggestionRequest = SuggestionRequest(yard: string, size: int, height: int, containerType: string)

  datatype PlacementRequest = PlacementRequest(yard: string, number: string, block: string, slot: int, row: int, tier: int)

  datatype PickupRequest = PickupRequest(yard: string, number: string)
}
