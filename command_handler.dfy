/// The mapped command handler: map a domain record to its persistence record
/// and add, delete or update it in the store, judging the outcome by the
/// number of affected records.
module MappedCommandHandler {
  import opened Base
  import opened Requests
  import opened Capabilities

  /** A store change and the affected-record count `SaveChangesAsync` reports for it. */
  datatype StoreChange<R> = StoreChange(recordsAffected: int, table: map<Obj, R>)

  /*
   * The store's own behaviour is an assumption of this model: an insert
   * affects one record when its key is new and none otherwise; a remove or an
   * update affects one record when the key is present and none otherwise. A
   * change that affects nothing leaves the table as it was.
   */

  function StoreAdd<R>(table: map<Obj, R>, key: Obj, record: R): (c: StoreChange<R>)
    ensures c.recordsAffected == 1 <==> key !in table
    ensures c.recordsAffected == 0 || c.recordsAffected == 1
    ensures c.recordsAffected == 1 ==> c.table == table[key := record] && |c.table| == |table| + 1
    ensures c.recordsAffected == 0 ==> c.table == table
  {
    if key in table then StoreChange(0, table) else StoreChange(1, table[key := record])
  }

  function StoreRemove<R>(table: map<Obj, R>, key: Obj): (c: StoreChange<R>)
    ensures c.recordsAffected == 1 <==> key in table
    ensures c.recordsAffected == 0 || c.recordsAffected == 1
    ensures c.recordsAffected == 1 ==> c.table == table - {key} && key !in c.table && |c.table| == |table| - 1
    ensures c.recordsAffected == 0 ==> c.table == table
  {
    if key in table then
      assert (table - {key}).Keys == table.Keys - {key};
      StoreChange(1, table - {key})
    else StoreChange(0, table)
  }

  function StoreUpdate<R>(table: map<Obj, R>, key: Obj, record: R): (c: StoreChange<R>)
    ensures c.recordsAffected == 1 <==> key in table
    ensures c.recordsAffected == 0 || c.recordsAffected == 1
    ensures c.recordsAffected == 1 ==> c.table == table[key := record] && |c.table| == |table|
    ensures c.recordsAffected == 0 ==> c.table == table
  {
    if key in table then
      assert table[key := record].Keys == table.Keys;
      StoreChange(1, table[key := record])
    else StoreChange(0, table)
  }

  /** True when every record is stored under its own key. */
  ghost predicate KeyedBy<R>(table: map<Obj, R>, keyOf: R -> Obj) {
    forall k :: k in table ==> keyOf(table[k]) == k
  }

  /** The persistence store of one record type, keyed by each record's `[Key]` value. */
  class Database<R> {
    const keyOf: R -> Obj
    var table: map<Obj, R>

    ghost predicate Valid()
      reads this
    {
      KeyedBy(table, keyOf)
    }

    constructor (keyOf: R -> Obj, seed: map<Obj, R>)
      requires KeyedBy(seed, keyOf)
      ensures Valid() && this.keyOf == keyOf && table == seed
    {
      this.keyOf := keyOf;
      table := seed;
    }

    /** `Add` followed by `SaveChangesAsync`. */
    method Add(record: R) returns (recordsAffected: int)
      requires Valid()
      modifies this
      ensures Valid()
      ensures StoreChange(recordsAffected, table) == StoreAdd(old(table), keyOf(record), record)
    {
      var key := keyOf(record);
      if key in table {
        recordsAffected := 0;
      } else {
        table := table[key := record];
        recordsAffected := 1;
      }
    }

    /** `Remove` followed by `SaveChangesAsync`. */
    method Remove(record: R) returns (recordsAffected: int)
      requires Valid()
      modifies this
      ensures Valid()
      ensures StoreChange(recordsAffected, table) == StoreRemove(old(table), keyOf(record))
    {
      var key := keyOf(record);
      if key in table {
        table := table - {key};
        recordsAffected := 1;
      } else {
        recordsAffected := 0;
      }
    }

    /** `Update` followed by `SaveChangesAsync`. */
    method Update(record: R) returns (recordsAffected: int)
      requires Valid()
      modifies this
      ensures Valid()
      ensures StoreChange(recordsAffected, table) == StoreUpdate(old(table), keyOf(record), record)
    {
      var key := keyOf(record);
      if key in table {
        table := table[key := record];
        recordsAffected := 1;
      } else {
        recordsAffected := 0;
      }
    }
  }

  const NotACommandEntity := " Does not implement ICommandEntity and therefore you can't Update/Add/Delete it directly."
  const NoMapperDefined := "No mapper is defined for "
  const ActionCompleted := "Action completed"
  const UnrecognisedState := "Nothing executed.  Unrecognised State."

  function SuccessMessage(state: CommandState): string {
    match state
    case Add => "Record Added"
    case Delete => "Record Deleted"
    case Update => "Record Updated"
    case Unrecognised => ActionCompleted
  }

  function FailureMessage(state: CommandState): string {
    match state
    case Add => "Error Adding Record"
    case Delete => "Error Deleting Record"
    case Update => "Error Updating Record"
    case Unrecognised => UnrecognisedState
  }

  /** The store change a command state asks for; an unrecognised state changes nothing. */
  function Apply<R>(table: map<Obj, R>, key: Obj, record: R, state: CommandState): StoreChange<R> {
    match state
    case Add => StoreAdd(table, key, record)
    case Delete => StoreRemove(table, key)
    case Update => StoreUpdate(table, key, record)
    case Unrecognised => StoreChange(0, table)
  }

  datatype CommandEffect<R> = CommandEffect(result: CommandResult, table: map<Obj, R>)

  /**
   * What `ExecuteCommandAsync` produces from the store's table: failures
   * that leave the store as it was for an item that is not a command entity,
   * for a missing mapper and for an unrecognised state; otherwise exactly one
   * store operation, succeeding with its state's message when it affected one
   * record (an add of a keyed record also returning that record's key value)
   * and failing with its state's message, store unchanged, when it did not.
   */
  function Command<Dco, Dbo>(
    table: map<Obj, Dbo>,
    keyOf: Dbo -> Obj,
    isCommandEntity: Dco -> bool,
    mapper: Option<EntityMap<Dbo, Dco>>,
    keyedEntity: Dbo -> Option<Obj>,
    request: CommandRequest<Dco>): (e: CommandEffect<Dbo>)
    ensures !isCommandEntity(request.item) ==> !e.result.successful && e.table == table
    ensures isCommandEntity(request.item) && mapper.None? ==> e.result == CommandFailure(NoMapperDefined) && e.table == table
    ensures e.result.successful ==> isCommandEntity(request.item) && mapper.Some? && !request.state.Unrecognised?
    ensures e.result.keyValue.Some? ==> request.state == Add && e.result.successful
    ensures request.state.Unrecognised? ==> e.table == table
    ensures isCommandEntity(request.item) && mapper.Some? ==>
      var dbo := mapper.value.toDbo(request.item);
      var key := keyOf(dbo);
      (request.state == Add ==>
        (e.result.successful <==> key !in table) &&
        (e.result.successful ==> e.table == table[key := dbo] && |e.table| == |table| + 1 &&
                                 e.result.message == "Record Added" && e.result.keyValue == keyedEntity(dbo)) &&
        (!e.result.successful ==> e.table == table && e.result == CommandFailure("Error Adding Record"))) &&
      (request.state == Delete ==>
        (e.result.successful <==> key in table) &&
        (e.result.successful ==> e.table == table - {key} && |e.table| == |table| - 1 && e.result == CommandSuccess("Record Deleted")) &&
        (!e.result.successful ==> e.table == table && e.result == CommandFailure("Error Deleting Record"))) &&
      (request.state == Update ==>
        (e.result.successful <==> key in table) &&
        (e.result.successful ==> e.table == table[key := dbo] && |e.table| == |table| && e.result == CommandSuccess("Record Updated")) &&
        (!e.result.successful ==> e.table == table && e.result == CommandFailure("Error Updating Record"))) &&
      (request.state == Unrecognised ==> e.result == CommandFailure(UnrecognisedState))
  {
    if !isCommandEntity(request.item) then CommandEffect(CommandFailure(NotACommandEntity), table)
    else
      match mapper
      case None => CommandEffect(CommandFailure(NoMapperDefined), table)
      case Some(m) =>
        var dbo := m.toDbo(request.item);
        var change := Apply(table, keyOf(dbo), dbo, request.state);
        var result :=
          if change.recordsAffected == 1 then
            if request.state == Add && keyedEntity(dbo).Some? then CommandSuccessWithKey(keyedEntity(dbo).value, SuccessMessage(request.state))
            else CommandSuccess(SuccessMessage(request.state))
          else CommandFailure(FailureMessage(request.state));
        CommandEffect(result, change.table)
  }

  /**
   * `ExecuteCommandAsync`, step by step: the entity and mapper checks, then
   * the state's messages and store operation, then the result chosen by the
   * affected-record count.
   */
  method ExecuteCommand<Dco, Dbo>(
    db: Database<Dbo>,
    isCommandEntity: Dco -> bool,
    mapper: Option<EntityMap<Dbo, Dco>>,
    keyedEntity: Dbo -> Option<Obj>,
    request: CommandRequest<Dco>) returns (result: CommandResult)
    requires db.Valid()
    modifies db
    ensures db.Valid()
    ensures CommandEffect(result, db.table) == Command(old(db.table), db.keyOf, isCommandEntity, mapper, keyedEntity, request)
  {
    if !isCommandEntity(request.item) {
      return CommandFailure(NotACommandEntity);
    }
    if mapper.None? {
      return CommandFailure(NoMapperDefined);
    }
    var dboRecord := mapper.value.toDbo(request.item);

    var success := ActionCompleted;
    var failure := UnrecognisedState;
    var recordsAffected := 0;
    var isAdd := false;

    if request.state == Add {
      success := "Record Added";
      failure := "Error Adding Record";
      isAdd := true;
      recordsAffected := db.Add(dboRecord);
    }
    if request.state == Delete {
      success := "Record Deleted";
      failure := "Error Deleting Record";
      recordsAffected := db.Remove(dboRecord);
    }
    if request.state == Update {
      success := "Record Updated";
      failure := "Error Updating Record";
      recordsAffected := db.Update(dboRecord);
    }

    if recordsAffected == 1 {
      var isKeyed := keyedEntity(dboRecord).Some?;
      if isKeyed && isAdd {
        return CommandSuccessWithKey(keyedEntity(dboRecord).value, success);
      } else {
        return CommandSuccess(success);
      }
    }
    return CommandFailure(failure);
  }
}
