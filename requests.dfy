/// The request and result records that travel through the data broker, and
/// the pipeline exception raised for wiring defects.
module Requests {
  import opened Base

  /** The entity identifier carried by an item request. */
  datatype EntityUid = EntityUid(value: Guid)

  /** An item query: which entity, and the key value to look it up by. */
  datatype ItemQueryRequest = ItemQueryRequest(uid: EntityUid, keyValue: Obj)

  /**
   * The `ItemQueryRequest(uid, keyValue)` constructor: an absent uid becomes
   * the entity uid of `Guid.Empty`, an absent key value becomes a boxed
   * `Guid.Empty`; present arguments are kept as given.
   */
  function NewItemQueryRequest(uid: Option<EntityUid>, keyValue: Option<Obj>): (r: ItemQueryRequest)
    ensures uid.None? ==> r.uid == EntityUid(EmptyGuid)
    ensures keyValue.None? ==> r.keyValue == GuidValue(EmptyGuid)
    ensures uid.Some? ==> r.uid == uid.value
    ensures keyValue.Some? ==> r.keyValue == keyValue.value
  {
    ItemQueryRequest(uid.GetOr(EntityUid(EmptyGuid)), keyValue.GetOr(GuidValue(EmptyGuid)))
  }

  /** `ItemQueryRequest.Create(uid, keyValue)`: the constructor on present arguments. */
  function CreateItemQueryRequest(uid: EntityUid, keyValue: Obj): (r: ItemQueryRequest)
    ensures r == NewItemQueryRequest(Some(uid), Some(keyValue))
    ensures r.uid == uid && r.keyValue == keyValue
  {
    NewItemQueryRequest(Some(uid), Some(keyValue))
  }

  /** The typed item query of the generic handler; its key may be null. */
  datatype KeyedItemQueryRequest = KeyedItemQueryRequest(key: Option<Obj>)

  /** A named filter and its data (the text the filter data stands for). */
  datatype FilterDefinition = FilterDefinition(filterName: string, filterData: string)

  /** A field to sort on and its direction. */
  datatype SortDefinition = SortDefinition(sortField: string, sortDescending: bool)

  /** A list query; a page size of zero or less means the query is not paged. */
  datatype ListQueryRequest = ListQueryRequest(
    startIndex: int,
    pageSize: int,
    filters: seq<FilterDefinition>,
    sorters: seq<SortDefinition>)

  /** The state a command asks for; anything else is not recognised by the handler. */
  datatype CommandState = Add | Update | Delete | Unrecognised

  datatype CommandRequest<T> = CommandRequest(item: T, state: CommandState)

  datatype ListQueryResult<T> = ListQueryResult(items: seq<T>, totalCount: int, successful: bool, message: string)

  datatype ItemQueryResult<T> = ItemQueryResult(item: Option<T>, successful: bool, message: string)

  datatype CommandResult = CommandResult(successful: bool, message: string, keyValue: Option<Obj>)

  function ListSuccess<T>(items: seq<T>, totalCount: int): ListQueryResult<T> {
    ListQueryResult(items, totalCount, true, "")
  }

  function ItemSuccess<T>(item: T): ItemQueryResult<T> {
    ItemQueryResult(Some(item), true, "")
  }

  function ItemFailure<T>(message: string): ItemQueryResult<T> {
    ItemQueryResult(None, false, message)
  }

  function CommandSuccess(message: string): CommandResult {
    CommandResult(true, message, None)
  }

  function CommandSuccessWithKey(key: Obj, message: string): CommandResult {
    CommandResult(true, message, Some(key))
  }

  function CommandFailure(message: string): CommandResult {
    CommandResult(false, message, None)
  }

  /** The wiring defects a handler throws a `DataPipelineException` for. */
  datatype DataPipelineException =
    | NoMapperDefined
    | FiltersWithoutFilterHandler
    | SortersWithoutSortHandler

  /** What a handler call ends in: a returned value, or a thrown pipeline exception. */
  datatype Outcome<T> = Returned(value: T) | Thrown(exception: DataPipelineException)
}
