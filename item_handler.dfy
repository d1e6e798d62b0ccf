/// The generic item handler: a custom handler registered for the record type
/// takes over; otherwise the key is checked, converted and looked up.
module ItemHandler {
  import opened Base
  import opened Requests
  import opened Capabilities
  import opened IdConverter

  /** A custom `IItemRequestHandler<TRecord, TKey>`, as the function from request to result that it computes. */
  type CustomItemHandler<R> = KeyedItemQueryRequest -> ItemQueryResult<R>

  const NoKeyProvided := "No Key provided"
  const CouldNotConvert := "Could not convert provided value to an Id of "
  const NoRecordRetrieved := "No record retrieved with the Key provided"

  /**
   * What the default path `GetItemAsync` produces: success, with exactly the
   * stored record, when the key is present, converts, and has a record; a
   * failure with no item in every other case, saying which check failed.
   */
  function DefaultItemQuery<R>(fw: Framework, store: map<Obj, R>, request: KeyedItemQueryRequest): (r: ItemQueryResult<R>)
    ensures r.successful <==>
      request.key.Some? && TryConvert(fw, request.key.value).Some? && TryConvert(fw, request.key.value).value in store
    ensures r.successful ==> r.item == Some(store[TryConvert(fw, request.key.value).value])
    ensures !r.successful ==> r.item.None?
    ensures request.key.None? ==> r.message == NoKeyProvided
    ensures request.key.Some? && TryConvert(fw, request.key.value).None? ==> r.message == CouldNotConvert
    ensures request.key.Some? && TryConvert(fw, request.key.value).Some? && TryConvert(fw, request.key.value).value !in store ==>
      r.message == NoRecordRetrieved
  {
    match request.key
    case None => ItemFailure(NoKeyProvided)
    case Some(k) =>
      match TryConvert(fw, k)
      case None => ItemFailure(CouldNotConvert)
      case Some(key) =>
        match Find(store, key)
        case None => ItemFailure(NoRecordRetrieved)
        case Some(record) => ItemSuccess(record)
  }

  /** What `ExecuteAsync` produces: the custom handler's result, unchanged, when one is registered. */
  function ExecuteItemQuery<R>(customHandler: Option<CustomItemHandler<R>>, fw: Framework, store: map<Obj, R>, request: KeyedItemQueryRequest): (r: ItemQueryResult<R>)
    ensures customHandler.Some? ==> r == customHandler.value(request)
    ensures customHandler.None? ==> r == DefaultItemQuery(fw, store, request)
  {
    match customHandler
    case Some(handler) => handler(request)
    case None => DefaultItemQuery(fw, store, request)
  }

  /** `GetItemAsync`: check the key, convert it into the `key` local, look it up; the store is only read. */
  method GetItem<R>(fw: Framework, store: map<Obj, R>, request: KeyedItemQueryRequest) returns (r: ItemQueryResult<R>)
    ensures r == DefaultItemQuery(fw, store, request)
  {
    if request.key.None? {
      return ItemFailure(NoKeyProvided);
    }
    var key: Option<Obj> := None;
    key := TryConvert(fw, request.key.value);
    if key.None? {
      return ItemFailure(CouldNotConvert);
    }
    var record := Find(store, key.value);
    if record.None? {
      return ItemFailure(NoRecordRetrieved);
    }
    return ItemSuccess(record.value);
  }

  /** `ExecuteAsync`: custom handler first, the default path otherwise. */
  method Execute<R>(customHandler: Option<CustomItemHandler<R>>, fw: Framework, store: map<Obj, R>, request: KeyedItemQueryRequest)
    returns (r: ItemQueryResult<R>)
    ensures r == ExecuteItemQuery(customHandler, fw, store, request)
  {
    if customHandler.Some? {
      return customHandler.value(request);
    }
    r := GetItem(fw, store, request);
  }

  /**
   * A registered custom handler decides the result alone: neither the store
   * nor the id converter of the default path has any effect on it.
   */
  lemma CustomHandlerTakesOver<R>(
    handler: CustomItemHandler<R>, fw1: Framework, fw2: Framework,
    store1: map<Obj, R>, store2: map<Obj, R>, request: KeyedItemQueryRequest)
    ensures ExecuteItemQuery(Some(handler), fw1, store1, request) == ExecuteItemQuery(Some(handler), fw2, store2, request)
    ensures ExecuteItemQuery(Some(handler), fw1, store1, request) == handler(request)
  {
  }

  /** A boxed `Guid` key finds the record stored under it when the framework's Guid text round-trips. */
  lemma GuidKeyFindsItsRecord<R>(fw: Framework, store: map<Obj, R>, g: Guid)
    requires GuidTextRoundTrips(fw) && GuidValue(g) in store
    ensures DefaultItemQuery(fw, store, KeyedItemQueryRequest(Some(GuidValue(g)))) == ItemSuccess(store[GuidValue(g)])
  {
    GuidIsKept(fw, g);
  }
}
