/**
 * The tank-file pipeline: validate the object key and extract the tank ID, turn the CSV rows
 * into a reading map, persist it to the tank's status record, and archive the file. Failures
 * before archiving are recorded on the status record of the current tank ID.
 *
 * The pure functions below give the effect of each step and of a whole run on the state the
 * run touches (`World`); the class `Processor` carries out the same steps on its own fields,
 * the status table and the object store, and is proved to agree with them.
 */
module Processor {
  import opened Wrappers
  import opened Strings
  import opened Strconv
  import opened Dynamo
  import opened ObjectStore

  /** The configuration values the pipeline reads: the archive bucket and key prefix. */
  datatype Config = Config(s3Bucket: string, s3FilePrefix: string)

  /** The object named by the triggering event (`s3.GetObjectInput`). */
  datatype ObjectInput = ObjectInput(bucket: string, key: string)

  /** One call of the CSV reader: a record of fields, or a read error. */
  datatype CsvRead = Record(fields: seq<string>) | ReadError(msg: string)

  /**
   * How a step ends: Go's `nil` error, a returned error, or a run-time panic (an index out
   * of range), which unwinds the whole run without any further step.
   */
  datatype Outcome = Nil | Error(msg: string) | Panic

  const InvalidFileType := "Invalid file type"
  const BadTankIdLength := "TankID must be 2 characters in length"

  // ---------------------------------------------------------------------------------------
  // Filename validation

  /** What extractTankID makes of a key. `BadLength` carries the ID it has already stored. */
  datatype Extraction = Extracted(id: string) | BadExtension | BadLength(id: string) | Unsplittable

  /**
   * The key is split on '.'; the second piece must be "csv". The tank ID is the second
   * '_'-piece of the first piece and must be 2 bytes long. A key with no '.', or whose first
   * piece has no '_', indexes past the end of a split (`Unsplittable`).
   */
  function TankIdOf(key: string): (r: Extraction)
    ensures r.Extracted? ==> Utf8Len(r.id) == 2 && '_' !in r.id
    ensures r.BadLength? ==> Utf8Len(r.id) != 2 && '_' !in r.id
  {
    var pcs := Split(key, '.');
    if |pcs| < 2 then Unsplittable
    else if pcs[1] != "csv" then BadExtension
    else
      var segs := Split(pcs[0], '_');
      if |segs| < 2 then Unsplittable
      else if Utf8Len(segs[1]) != 2 then BadLength(segs[1])
      else Extracted(segs[1])
  }

  // ---------------------------------------------------------------------------------------
  // Reading map

  predicate HasTwoFields(rows: seq<seq<string>>)
  {
    forall i :: 0 <= i < |rows| ==> |rows[i]| >= 2
  }

  /** `{level: Atoi(f0), litres: Atoi(f1)}`, a field that does not parse counting as 0. */
  function RowReading(row: seq<string>): Reading
    requires |row| >= 2
  {
    Reading(AtoiOrZero(row[0]), AtoiOrZero(row[1]))
  }

  /** The reading map after storing every row under its raw first field, in order. */
  function ReadingsOf(rows: seq<seq<string>>): (m: ReadingMap)
    requires HasTwoFields(rows)
    ensures forall i :: 0 <= i < |rows| ==> rows[i][0] in m
    ensures rows != [] ==> m[rows[|rows| - 1][0]] == RowReading(rows[|rows| - 1])
  {
    if rows == [] then map[]
    else
      var n := |rows| - 1;
      var front := rows[..n];
      assert forall i :: 0 <= i < n ==> front[i] == rows[i];
      ReadingsOf(front)[rows[n][0] := RowReading(rows[n])]
  }

  /** A read the row loop gets through: a record holding at least two fields. */
  predicate GoodRead(r: CsvRead)
  {
    r.Record? && |r.fields| >= 2
  }

  /** The number of reads before the first read error or short record. */
  function GoodPrefix(results: seq<CsvRead>): (n: nat)
    ensures n <= |results|
    ensures forall i :: 0 <= i < n ==> GoodRead(results[i])
    ensures n < |results| ==> !GoodRead(results[n])
  {
    if results == [] || !GoodRead(results[0]) then 0 else 1 + GoodPrefix(results[1..])
  }

  function RowsOf(results: seq<CsvRead>): (rows: seq<seq<string>>)
    requires forall i :: 0 <= i < |results| ==> GoodRead(results[i])
    ensures |rows| == |results| && HasTwoFields(rows)
    ensures forall i :: 0 <= i < |results| ==> GoodRead(results[i]) && rows[i] == results[i].fields
  {
    if results == [] then []
    else
      var n := |results| - 1;
      assert GoodRead(results[n]);
      RowsOf(results[..n]) + [results[n].fields]
  }

  /**
   * fetchFile's row loop: the reading map built from the reads before the first failure,
   * and how the loop ends (end of input, a read error, or a panic on a record with fewer
   * than two fields).
   */
  function Fetch(results: seq<CsvRead>): (r: (ReadingMap, Outcome))
    ensures r.1 == Nil <==> forall i :: 0 <= i < |results| ==> GoodRead(results[i])
    ensures r.1.Error? ==> exists i :: 0 <= i < |results| && results[i] == ReadError(r.1.msg)
    ensures r.1 == Panic ==> exists i :: 0 <= i < |results| && results[i].Record? && |results[i].fields| < 2
  {
    var n := GoodPrefix(results);
    var depths := ReadingsOf(RowsOf(results[..n]));
    if n == |results| then (depths, Nil)
    else if results[n].ReadError? then (depths, Error(results[n].msg))
    else (depths, Panic)
  }

  /** The loop stops at the first read that is not a good record. */
  lemma FetchStopsAt(results: seq<CsvRead>, i: nat)
    requires i < |results|
    requires forall j :: 0 <= j < i ==> GoodRead(results[j])
    requires !GoodRead(results[i])
    ensures GoodPrefix(results) == i
    ensures Fetch(results).0 == ReadingsOf(RowsOf(results[..i]))
    ensures Fetch(results).1 == if results[i].ReadError? then Error(results[i].msg) else Panic
  {
    GoodPrefixIs(results, i);
    var depths := ReadingsOf(RowsOf(results[..i]));
    assert Fetch(results) == (depths, if results[i].ReadError? then Error(results[i].msg) else Panic);
  }

  lemma {:induction false} GoodPrefixIs(results: seq<CsvRead>, i: nat)
    requires i < |results|
    requires forall j :: 0 <= j < i ==> GoodRead(results[j])
    requires !GoodRead(results[i])
    ensures GoodPrefix(results) == i
  {
    if i > 0 {
      assert GoodRead(results[0]);
      assert forall j :: 0 <= j < i - 1 ==> results[1..][j] == results[j + 1];
      GoodPrefixIs(results[1..], i - 1);
    }
  }

  /** One more good record adds its reading under its first field. */
  lemma FetchStep(results: seq<CsvRead>, i: nat)
    requires i < |results|
    requires forall j :: 0 <= j <= i ==> GoodRead(results[j])
    ensures ReadingsOf(RowsOf(results[..i + 1]))
         == ReadingsOf(RowsOf(results[..i]))[results[i].fields[0] := RowReading(results[i].fields)]
  {
    assert results[..i + 1][..i] == results[..i];
  }

  lemma FetchCompletes(results: seq<CsvRead>)
    requires forall j :: 0 <= j < |results| ==> GoodRead(results[j])
    ensures Fetch(results) == (ReadingsOf(RowsOf(results)), Nil)
  {
    assert results[..|results|] == results;
  }

  // ---------------------------------------------------------------------------------------
  // Archive

  /** `S3FilePrefix + "/" + ts + "_" + tankID + ".csv"` with `ts` the Unix time in seconds. */
  function ArchiveKey(prefix: string, now: int, tankID: string): (k: string)
    ensures |k| > |prefix| + |tankID| + 6
    ensures k[..|prefix| + 1] == prefix + "/"
    ensures k[|k| - |tankID| - 5..] == "_" + tankID + ".csv"
  {
    prefix + "/" + FormatInt(now) + "_" + tankID + ".csv"
  }

  /** The replies of the outside world during one run, and its clock readings. */
  datatype Env = Env(
    csv: seq<CsvRead>,             // the CSV reader's results on the downloaded content
    levelsClock: int,            // time.Now() in UpdateLevels
    marshal: Reply,              // MarshalMap of the readings
    levelsWrite: Reply,          // UpdateItem in UpdateLevels
    errorClock: int,             // time.Now() in UpdateWithError
    errorWrite: Reply,           // UpdateItem in UpdateWithError
    session: Reply,              // session.NewSession in cleanUpS3
    archiveClock: int,           // time.Now() in cleanUpS3
    copy: Reply,                 // CopyObject
    delete: Reply)               // DeleteObject

  /** cleanUpS3: copy the object to the archive key, then delete it if the copy succeeded. */
  function Archive(cfg: Config, objects: Objects, input: ObjectInput, tankID: string, env: Env): (res: (Objects, Outcome))
    ensures res.1 != Panic
    ensures env.session.Reject? ==> res == (objects, Error(env.session.msg))
    ensures res.1 == Nil <==>
      && env.session.Accept? && env.copy.Accept? && env.delete.Accept?
      && ParseCopySource(CopySource(input.bucket, input.key)).Some?
      && ParseCopySource(CopySource(input.bucket, input.key)).value in objects
    ensures res.1 == Nil ==> ObjectRef(input.bucket, input.key) !in res.0
  {
    if env.session.Reject? then (objects, Error(env.session.msg))
    else
      var newKey := ArchiveKey(cfg.s3FilePrefix, env.archiveClock, tankID);
      var (copied, c) := Copied(objects, CopySource(input.bucket, input.key), ObjectRef(cfg.s3Bucket, newKey), env.copy);
      if c.Reject? then (copied, Error(c.msg))
      else
        var (deleted, d) := Deleted(copied, ObjectRef(input.bucket, input.key), env.delete);
        if d.Reject? then (deleted, Error(d.msg)) else (deleted, Nil)
  }

  // ---------------------------------------------------------------------------------------
  // Whole run

  /** The state a run reads and changes. */
  datatype World = World(tankID: string, depths: ReadingMap, table: Table, objects: Objects)

  /** recordFailure: an error record for the current tank ID; its reply is ignored. */
  function WithFailureRecorded(w: World, msg: string, env: Env): (w': World)
    ensures w'.tankID == w.tankID && w'.depths == w.depths && w'.objects == w.objects
    ensures w'.table != w.table ==>
      w.tankID in w'.table && w'.table[w.tankID].status == ERROR && w'.table[w.tankID].errorMsg == msg
    ensures KeyedById(w.table) ==> KeyedById(w'.table)
  {
    w.(table := WriteError(w.table, msg, w.tankID, env.errorClock, env.errorWrite).0)
  }

  /** ProcessFile: extract, fetch, persist, clean up, stopping at the first failure. */
  function Run(cfg: Config, w: World, input: ObjectInput, env: Env): (r: (World, Outcome))
    ensures r.1 == Nil ==>
      TankIdOf(input.key).Extracted? && r.0.tankID == TankIdOf(input.key).id && Fetch(env.csv).1 == Nil
    ensures KeyedById(w.table) ==> KeyedById(r.0.table)
  {
    match TankIdOf(input.key)
    case Unsplittable => (w, Panic)
    case BadExtension => (WithFailureRecorded(w, InvalidFileType, env), Error(InvalidFileType))
    case BadLength(id) =>
      (WithFailureRecorded(w.(tankID := id), BadTankIdLength, env), Error(BadTankIdLength))
    case Extracted(id) =>
      var (depths, fetched) := Fetch(env.csv);
      var w2 := w.(tankID := id, depths := depths);
      if fetched.Panic? then (w2, Panic)
      else if fetched.Error? then (WithFailureRecorded(w2, fetched.msg, env), fetched)
      else
        var (t3, persisted) := WriteLevels(w2.table, depths, id, env.levelsClock, env.marshal, env.levelsWrite);
        if persisted.Failure? then
          (WithFailureRecorded(w2.(table := t3), persisted.error, env), Error(persisted.error))
        else
          var (objects, archived) := Archive(cfg, w2.objects, input, id, env);
          (w2.(table := t3, objects := objects), archived)
  }

  // ---------------------------------------------------------------------------------------
  // The processor object

  class Processor {
    const cfg: Config
    const db: Dynamo
    const s3: Store
    var depths: ReadingMap
    var input: ObjectInput
    var tankID: string

    /** The part of the state a run reads and changes. */
    function State(): World
      reads this, db, s3
    {
      World(tankID, depths, db.table, s3.objects)
    }

    ghost predicate Valid()
      reads this, db
    {
      db.Valid()
    }

    /** A processor before its first file: no tank ID, no readings, no input yet. */
    constructor (cfg: Config, db: Dynamo, s3: Store)
      requires db.Valid()
      ensures Valid()
      ensures this.cfg == cfg && this.db == db && this.s3 == s3
      ensures tankID == "" && depths == map[] && input == ObjectInput("", "")
    {
      this.cfg := cfg;
      this.db := db;
      this.s3 := s3;
      depths := map[];
      input := ObjectInput("", "");
      tankID := "";
    }

    method ProcessFile(input: ObjectInput, env: Env) returns (err: Outcome)
      requires Valid()
      modifies this, db, s3
      ensures Valid() && this.input == input
      ensures (State(), err) == Run(cfg, old(State()), input, env)
    {
      this.input := input;
      err := ExtractTankID();
      if err.Panic? {
        return;
      }
      if err.Error? {
        var _ := RecordFailure(err.msg, env);
        return;
      }

      err := FetchFile(env.csv);
      if err.Panic? {
        return;
      }
      if err.Error? {
        var _ := RecordFailure(err.msg, env);
        return;
      }

      var output := PersistLevels(env);
      if output.Failure? {
        var _ := RecordFailure(output.error, env);
        return Error(output.error);
      }

      err := CleanUpS3(env);
    }

    /** The row loop of fetchFile over the CSV reader's results. */
    method FetchFile(results: seq<CsvRead>) returns (err: Outcome)
      modifies this`depths
      ensures (depths, err) == Fetch(results)
    {
      depths := map[];
      var i := 0;
      while i < |results|
        invariant 0 <= i <= |results|
        invariant forall j :: 0 <= j < i ==> GoodRead(results[j])
        invariant depths == ReadingsOf(RowsOf(results[..i]))
      {
        match results[i]
        case ReadError(msg) =>
          FetchStopsAt(results, i);
          return Error(msg);
        case Record(line) =>
          if |line| < 1 {
            FetchStopsAt(results, i);
            return Panic;
          }
          var lev := AtoiOrZero(line[0]);
          if |line| < 2 {
            FetchStopsAt(results, i);
            return Panic;
          }
          var lit := AtoiOrZero(line[1]);
          FetchStep(results, i);
          depths := depths[line[0] := Reading(lev, lit)];
          i := i + 1;
      }
      FetchCompletes(results);
      err := Nil;
    }

    /** extractTankID: the ID is stored before its length is checked. */
    method ExtractTankID() returns (err: Outcome)
      modifies this`tankID
      ensures match TankIdOf(input.key)
        case Extracted(id) => tankID == id && err == Nil
        case BadLength(id) => tankID == id && err == Error(BadTankIdLength)
        case BadExtension => tankID == old(tankID) && err == Error(InvalidFileType)
        case Unsplittable => tankID == old(tankID) && err == Panic
    {
      var pcs := Split(input.key, '.');
      if |pcs| < 2 {
        return Panic;
      }
      if pcs[1] != "csv" {
        return Error(InvalidFileType);
      }
      var segs := Split(pcs[0], '_');
      if |segs| < 2 {
        return Panic;
      }
      tankID := segs[1];
      if Utf8Len(tankID) != 2 {
        return Error(BadTankIdLength);
      }
      err := Nil;
    }

    method PersistLevels(env: Env) returns (output: Result<Updated>)
      requires Valid()
      modifies db
      ensures Valid()
      ensures (db.table, output) == WriteLevels(old(db.table), depths, tankID, env.levelsClock, env.marshal, env.levelsWrite)
    {
      output := db.UpdateLevels(depths, tankID, env.levelsClock, env.marshal, env.levelsWrite);
    }

    method RecordFailure(errStr: string, env: Env) returns (output: Result<Updated>)
      requires Valid()
      modifies db
      ensures Valid()
      ensures (db.table, output) == WriteError(old(db.table), errStr, tankID, env.errorClock, env.errorWrite)
    {
      output := db.UpdateWithError(errStr, tankID, env.errorClock, env.errorWrite);
    }

    /** cleanUpS3: copy to the archive key, and delete the source only after a good copy. */
    method CleanUpS3(env: Env) returns (err: Outcome)
      modifies s3
      ensures (s3.objects, err) == Archive(cfg, old(s3.objects), input, tankID, env)
    {
      if env.session.Reject? {
        return Error(env.session.msg);
      }
      var ts := FormatInt(env.archiveClock);
      var origKey := input.key;
      var origBucket := input.bucket;
      var source := CopySource(origBucket, origKey);
      var newKey := cfg.s3FilePrefix + "/" + ts + "_" + tankID + ".csv";

      var copied := s3.CopyObject(cfg.s3Bucket, source, newKey, env.copy);
      if copied.Reject? {
        return Error(copied.msg);
      }

      var deleted := s3.DeleteObject(origBucket, origKey, env.delete);
      if deleted.Reject? {
        return Error(deleted.msg);
      }
      err := Nil;
    }
  }
}
