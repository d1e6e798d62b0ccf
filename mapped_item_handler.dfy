/// The mapped item handler: find a persistence record by key and map it to
/// its domain record.
module MappedItemHandler {
  import opened Base
  import opened Requests
  import opened Capabilities

  const NoRecordRetrieved := "No record retrieved with a Uid of "

  /**
   * What `GetItemAsync` produces: a pipeline exception when no mapper is
   * registered; otherwise a failure with no item when nothing is stored under
   * the request's key, and success with the mapped record when something is.
   */
  function ItemQuery<Dbo, Dco>(mapper: Option<EntityMap<Dbo, Dco>>, store: map<Obj, Dbo>, request: ItemQueryRequest): (r: Outcome<ItemQueryResult<Dco>>)
    ensures r.Thrown? <==> mapper.None?
    ensures r.Thrown? ==> r.exception == NoMapperDefined
    ensures r.Returned? ==> (r.value.successful <==> request.keyValue in store)
    ensures r.Returned? && request.keyValue in store ==> r.value.item == Some(mapper.value.toDomain(store[request.keyValue]))
    ensures r.Returned? && request.keyValue !in store ==> r.value.item.None? && r.value.message == NoRecordRetrieved
  {
    match mapper
    case None => Thrown(NoMapperDefined)
    case Some(m) =>
      match Find(store, request.keyValue)
      case None => Returned(ItemFailure(NoRecordRetrieved))
      case Some(inRecord) => Returned(ItemSuccess(m.toDomain(inRecord)))
  }

  /** `GetItemAsync` as a chain of early returns; the store is only read. */
  method GetItem<Dbo, Dco>(mapper: Option<EntityMap<Dbo, Dco>>, store: map<Obj, Dbo>, request: ItemQueryRequest)
    returns (r: Outcome<ItemQueryResult<Dco>>)
    ensures r == ItemQuery(mapper, store, request)
  {
    if mapper.None? {
      return Thrown(NoMapperDefined);
    }
    var inRecord := Find(store, request.keyValue);
    if inRecord.None? {
      return Returned(ItemFailure(NoRecordRetrieved));
    }
    // A total map never yields null, so the "Unable to map record" failure cannot arise here.
    var outRecord := mapper.value.toDomain(inRecord.value);
    return Returned(ItemSuccess(outRecord));
  }
}
