/**
 * The tank status table (DynamoDB table `GDS_Tank`) and the two updates the pipeline issues
 * against it. A record is addressed by its `ID`; each update sets a fixed list of attributes
 * of that one record and leaves every other attribute and every other record as it was.
 * UpdateItem creates the record when none has that `ID` yet.
 */
module Dynamo {
  import opened Wrappers

  const TankTable := "GDS_Tank"

  /**
   * The status values declared by the table client, each stored in `Status` as its own name;
   * only OK and ERROR are ever written.
   */
  datatype Status = OK | ERROR | PENDING | PROCESSING

  /** One reading of a tank: `{"level": …, "litres": …}`. */
  datatype Reading = Reading(level: int, litres: int)

  /** The reading map, keyed by the raw text of the level field. */
  type ReadingMap = map<string, Reading>

  /**
   * A status record. `levels` is `None` for a record that has never received readings;
   * `others` stands for the attributes this pipeline never writes.
   */
  datatype TankRecord = TankRecord(
    id: string,
    errorMsg: string,
    levels: Option<ReadingMap>,
    status: Status,
    updatedAt: int,
    others: map<string, string>)

  type Table = map<string, TankRecord>

  /** Every record is stored under its own `ID`. */
  predicate KeyedById(t: Table)
  {
    forall id :: id in t ==> t[id].id == id
  }

  /**
   * An UpdateItem request on the table: the key `ID` and the values of its
   * `set ErrorMsg = …, [Levels = …,] #status = …, UpdatedAt = …` expression.
   * `levels` is `None` when `Levels` is not part of the expression.
   */
  datatype UpdateItemInput = UpdateItemInput(
    tableName: string,
    key: string,
    errorMsg: string,
    levels: Option<ReadingMap>,
    status: Status,
    updatedAt: int)

  /** The attributes UpdateItem returns with `ReturnValues: UPDATED_NEW`. */
  datatype Updated = Updated(errorMsg: string, levels: Option<ReadingMap>, status: Status, updatedAt: int)

  /** The `ErrorMsg` written on success: a single space. */
  const BlankErrorMsg := " "

  /** DynamoDB refuses an empty string as the value of a key attribute. */
  const EmptyKeyError := "ValidationException: the AttributeValue for a key attribute cannot contain an empty string value"

  /** The request built by UpdateLevels: it clears ErrorMsg and sets Levels and status OK. */
  function LevelsRequest(depths: ReadingMap, tankID: string, now: int): (req: UpdateItemInput)
    ensures req.tableName == TankTable && req.key == tankID
    ensures req.errorMsg == BlankErrorMsg && req.levels == Some(depths) && req.status == OK
  {
    UpdateItemInput(TankTable, tankID, BlankErrorMsg, Some(depths), OK, now)
  }

  /** The request built by UpdateWithError: `Levels` is not in it. */
  function ErrorRequest(errMsg: string, tankID: string, now: int): (req: UpdateItemInput)
    ensures req.tableName == TankTable && req.key == tankID
    ensures req.errorMsg == errMsg && req.levels == None && req.status == ERROR
  {
    UpdateItemInput(TankTable, tankID, errMsg, None, ERROR, now)
  }

  function Lookup(t: Table, id: string): Option<TankRecord>
  {
    if id in t then Some(t[id]) else None
  }

  /** The record after the `set` expression of `req` is applied to it (or to no record). */
  function SetFields(prior: Option<TankRecord>, req: UpdateItemInput): (r: TankRecord)
    ensures r.id == req.key && r.errorMsg == req.errorMsg && r.status == req.status
    ensures r.updatedAt == req.updatedAt
    ensures req.levels.Some? ==> r.levels == req.levels
    ensures req.levels.None? ==> r.levels == (if prior.Some? then prior.value.levels else None)
    ensures r.others == (if prior.Some? then prior.value.others else map[])
  {
    var levels := if req.levels.Some? then req.levels else if prior.Some? then prior.value.levels else None;
    var others := if prior.Some? then prior.value.others else map[];
    TankRecord(req.key, req.errorMsg, levels, req.status, req.updatedAt, others)
  }

  /** The effect of one UpdateItem call and its reply, as a function of the table before it. */
  function ApplyUpdate(t: Table, req: UpdateItemInput, write: Reply): (res: (Table, Result<Updated>))
    ensures res.1.Success? <==> req.key != "" && write.Accept?
    ensures res.1.Failure? ==> res.0 == t
    ensures res.1.Success? ==> res.0.Keys == t.Keys + {req.key}
    ensures forall id :: id in t && id != req.key ==> res.0[id] == t[id]
    ensures KeyedById(t) ==> KeyedById(res.0)
  {
    if req.key == "" then (t, Failure(EmptyKeyError))
    else if write.Reject? then (t, Failure(write.msg))
    else
      (t[req.key := SetFields(Lookup(t, req.key), req)],
       Success(Updated(req.errorMsg, req.levels, req.status, req.updatedAt)))
  }

  /**
   * UpdateLevels: marshal the readings (a step that may fail before anything is written),
   * then set ErrorMsg, Levels, Status and UpdatedAt of record `tankID`.
   */
  function WriteLevels(t: Table, depths: ReadingMap, tankID: string, now: int, marshal: Reply, write: Reply)
    : (res: (Table, Result<Updated>))
    ensures res.1.Success? <==> marshal.Accept? && tankID != "" && write.Accept?
    ensures marshal.Reject? ==> res.1 == Failure(marshal.msg)
    ensures marshal.Accept? && tankID == "" ==> res.1 == Failure(EmptyKeyError)
    ensures marshal.Accept? && tankID != "" && write.Reject? ==> res.1 == Failure(write.msg)
    ensures res.1.Failure? ==> res.0 == t
    ensures res.1.Success? ==>
      && tankID in res.0
      && res.0[tankID].id == tankID
      && res.0[tankID].errorMsg == BlankErrorMsg
      && res.0[tankID].levels == Some(depths)
      && res.0[tankID].status == OK
      && res.0[tankID].updatedAt == now
      && res.0[tankID].others == (if tankID in t then t[tankID].others else map[])
      && res.1.value == Updated(BlankErrorMsg, Some(depths), OK, now)
    ensures forall id :: id != tankID ==> (id in res.0 <==> id in t)
    ensures forall id :: id in t && id != tankID ==> res.0[id] == t[id]
    ensures KeyedById(t) ==> KeyedById(res.0)
  {
    if marshal.Reject? then (t, Failure(marshal.msg))
    else ApplyUpdate(t, LevelsRequest(depths, tankID, now), write)
  }

  /**
   * UpdateWithError: set ErrorMsg, Status and UpdatedAt of record `tankID`; whatever Levels
   * the record had is kept.
   */
  function WriteError(t: Table, errMsg: string, tankID: string, now: int, write: Reply)
    : (res: (Table, Result<Updated>))
    ensures res.1.Success? <==> tankID != "" && write.Accept?
    ensures tankID == "" ==> res.1 == Failure(EmptyKeyError)
    ensures tankID != "" && write.Reject? ==> res.1 == Failure(write.msg)
    ensures res.1.Failure? ==> res.0 == t
    ensures res.1.Success? ==>
      && tankID in res.0
      && res.0[tankID].id == tankID
      && res.0[tankID].errorMsg == errMsg
      && res.0[tankID].levels == (if tankID in t then t[tankID].levels else None)
      && res.0[tankID].status == ERROR
      && res.0[tankID].updatedAt == now
      && res.0[tankID].others == (if tankID in t then t[tankID].others else map[])
      && res.1.value == Updated(errMsg, None, ERROR, now)
    ensures forall id :: id != tankID ==> (id in res.0 <==> id in t)
    ensures forall id :: id in t && id != tankID ==> res.0[id] == t[id]
    ensures KeyedById(t) ==> KeyedById(res.0)
  {
    ApplyUpdate(t, ErrorRequest(errMsg, tankID, now), write)
  }

  /** An error recorded after a successful persist keeps the persisted readings. */
  lemma ErrorKeepsPersistedLevels(t: Table, depths: ReadingMap, tankID: string, t1: int, errMsg: string, t2: int)
    requires tankID != ""
    ensures var after := WriteError(WriteLevels(t, depths, tankID, t1, Accept, Accept).0, errMsg, tankID, t2, Accept).0;
      && after[tankID].levels == Some(depths)
      && after[tankID].status == ERROR
      && after[tankID].errorMsg == errMsg
  {
  }

  /** A successful persist leaves no trace of an earlier error on the record. */
  lemma PersistClearsError(t: Table, errMsg: string, tankID: string, t1: int, depths: ReadingMap, t2: int)
    requires tankID != ""
    ensures WriteLevels(WriteError(t, errMsg, tankID, t1, Accept).0, depths, tankID, t2, Accept, Accept).0
         == WriteLevels(t, depths, tankID, t2, Accept, Accept).0
  {
    var t' := WriteError(t, errMsg, tankID, t1, Accept).0;
    var a := WriteLevels(t', depths, tankID, t2, Accept, Accept).0;
    var b := WriteLevels(t, depths, tankID, t2, Accept, Accept).0;
    assert a.Keys == b.Keys;
  }

  /** A write under `tankID` leaves the record status OK or ERROR, never PENDING or PROCESSING. */
  lemma WrittenStatusIsOkOrError(t: Table, req: UpdateItemInput, write: Reply)
    requires req.status == OK || req.status == ERROR
    ensures forall id :: id in ApplyUpdate(t, req, write).0 ==>
      (id in t && ApplyUpdate(t, req, write).0[id] == t[id]) ||
      ApplyUpdate(t, req, write).0[id].status in {OK, ERROR}
  {
  }

  /** The client of the status table; `table` is the state of the remote table. */
  class Dynamo {
    var table: Table

    ghost predicate Valid()
      reads this
    {
      KeyedById(table)
    }

    constructor (table: Table)
      requires KeyedById(table)
      ensures Valid() && this.table == table
    {
      this.table := table;
    }

    /** UpdateItem: apply the request's `set` expression to record `input.key`. */
    method UpdateItem(input: UpdateItemInput, write: Reply) returns (output: Result<Updated>)
      requires Valid()
      modifies this
      ensures Valid()
      ensures (table, output) == ApplyUpdate(old(table), input, write)
    {
      if input.key == "" {
        return Failure(EmptyKeyError);
      }
      if write.Reject? {
        return Failure(write.msg);
      }
      table := table[input.key := SetFields(Lookup(table, input.key), input)];
      output := Success(Updated(input.errorMsg, input.levels, input.status, input.updatedAt));
    }

    /** Record readings: ErrorMsg " ", the new Levels, Status OK, UpdatedAt `now`. */
    method UpdateLevels(depths: ReadingMap, tankID: string, now: int, marshal: Reply, write: Reply)
      returns (output: Result<Updated>)
      requires Valid()
      modifies this
      ensures Valid()
      ensures (table, output) == WriteLevels(old(table), depths, tankID, now, marshal, write)
    {
      if marshal.Reject? {
        return Failure(marshal.msg);
      }
      var input := LevelsRequest(depths, tankID, now);
      output := UpdateItem(input, write);
    }

    /** Record a failure: ErrorMsg `errMsg`, Status ERROR, UpdatedAt `now`; Levels untouched. */
    method UpdateWithError(errMsg: string, tankID: string, now: int, write: Reply)
      returns (output: Result<Updated>)
      requires Valid()
      modifies this
      ensures Valid()
      ensures (table, output) == WriteError(old(table), errMsg, tankID, now, write)
    {
      var input := ErrorRequest(errMsg, tankID, now);
      output := UpdateItem(input, write);
    }
  }
}
