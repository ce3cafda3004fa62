# Tank-file pipeline, modelled in Dafny

A Go service ingests CSV files of tank readings. A file lands in an S3 bucket under a name
like `tankFile_20.csv`. The service takes the tank ID (`20`) from the file name and turns
each CSV row `level,litres` into a reading. It writes the readings to the tank's status
record in the DynamoDB table `GDS_Tank`, with status `OK`, and then moves the file to an
archive key `<prefix>/<unix seconds>_<tankID>.csv`. If a step before the archive step
fails, the error goes onto the status record of the current tank ID as status `ERROR`.

The model has these modules:

- `Strings` (`strings.dfy`) gives Go's `strings.Split` on a one-character separator, its
  inverse `Join`, and Go's `len` of a string as the UTF-8 byte length.
- `Strconv` (`strconv.dfy`) gives `strconv.Atoi` and `strconv.FormatInt(n, 10)` on
  unbounded integers.
- `Dynamo` (`dynamo.dfy`) holds the status record and the table as a map keyed by `ID`.
  It builds the two UpdateItem requests as values. It states their effect as pure functions
  (`WriteLevels`, `WriteError`). The class `Dynamo` holds the table and updates it in place.
- `ObjectStore` (`objectstore.dfy`) is the S3 store as a map from (bucket, key) to bytes,
  with copy (from a `bucket/key` copy source) and delete.
- `Processor` (`processor.dfy`) is the pipeline. Pure functions give the effect of each step
  and of a whole run (`TankIdOf`, `Fetch`, `Archive`, `Run`). The class `Processor` has the
  Go struct's fields `tankID`, `depths` and `input` and runs the same steps as methods. Each
  method is proved equal to its function.
- `PipelineProperties` (`properties.dfy`) holds the lemmas about validation, the reading map,
  archiving and the routing of failures.

The outside world is passed in as parameters, in the datatype `Env`. That covers the
results of the CSV reader, the replies of the external services (`Accept` or
`Reject(msg)`) and each `time.Now()` reading. So every mix of service failures is covered.
A Go panic is an explicit `Panic` outcome, and it ends the run. There are three places
where one can happen, each an index past the end of a slice:
- `pcs[1]` on a key without `.` (processor/processor.go:131);
- the `[1]` of the `_`-split on a first piece without `_` (processor/processor.go:136);
- `line[1]` on a CSV record with fewer than two fields (processor/processor.go:118).

## Behaviour of the code worth knowing

The comment at processor/processor.go:127 gives the expected name as `tankFile_<tankID>.csv`.
The code is looser than that convention, and its failure routing has some surprises:

- Only the piece after the first `.` is checked, so `x_20.csv.bak` is accepted (`ExtensionChecked`).
- A bad extension is recorded even though no tank ID was derived from the key. It goes
  under the tank ID left over from the previous file (`BadExtensionUsesStaleId`,
  `SecondRunBlamesFirstTank`). With no previous file that tank ID is empty, and DynamoDB
  refuses the write.
- An ID of the wrong length is stored before it is checked. The failure then goes to a
  record under the bad ID, for example `123`. UpdateItem creates that record if it does
  not exist (`BadLengthUsesBadId`).
- A failed persist is itself recorded as an error on the record (`PersistFailureRecorded`).
- A successful update writes `ErrorMsg = " "` (one space), not an empty string.
- A malformed number is not an error. Any field that is not a decimal literal reads as 0
  (`AtoiWithoutDigits`, `BadNumberExample`).
- The 2-character rule counts bytes, not characters. `len` in Go is the UTF-8 length.
- The download's error is discarded (processor/processor.go:104). An object that cannot be
  read is parsed as empty content, and its run overwrites Levels with an empty map under
  status OK (`EmptyContentOverwritesLevels`). If the object still exists, that run can then
  archive the file and return nil (`SuccessfulRun` with no rows).

## Model

| member | source | states |
|---|---|---|
| `Strings.Split` | processor/processor.go:130-136 | a split has at least one piece and no piece contains the separator |
| `Strings.JoinSplit` | processor/processor.go:130-136 | joining the pieces of a split with the separator gives back the string |
| `Strings.SplitJoin` | processor/processor.go:130-136 | splitting a join of separator-free pieces gives back the pieces |
| `Strings.SplitFront` | processor/processor.go:130-136 | a string with two or more pieces is first piece, separator, second piece, remainder |
| `Strings.Utf8Len` | processor/processor.go:137 | the byte length of a string is between its length and four times its length, and zero only for the empty string |
| `Strconv.Atoi` | processor/processor.go:117-118 | parses exactly the decimal literals (optional sign, one or more digits); a `-` literal is never positive and any other is never negative |
| `Strconv.AtoiOrZero` | processor/processor.go:117-118 | `n, _ := Atoi(s)`: the parsed value for a decimal literal, 0 for anything else |
| `Strconv.FormatInt` | processor/processor.go:169 | the result is a decimal literal: a `-` exactly for negative numbers, then only digits |
| `Strconv.AtoiFormatInt` | processor/processor.go:117-118 | Atoi parses every decimal written by FormatInt back to the same integer |
| `Strconv.AtoiWithoutDigits` | processor/processor.go:117-118 | a field with no digit is a syntax error and reads as 0 |
| `Strconv.FormatIntChars` | processor/processor.go:169 | a formatted timestamp holds only digits and `-`, so no `.` or `_` |
| `Dynamo.LevelsRequest` | dynamo/dynamo.go:56-82 | the UpdateLevels request names table `GDS_Tank` and key `tankID`, and sets ErrorMsg " ", the readings as Levels and status OK |
| `Dynamo.ErrorRequest` | dynamo/dynamo.go:98-121 | the UpdateWithError request names the same table and key, sets the message and status ERROR, and leaves Levels out |
| `Dynamo.SetFields` | dynamo/dynamo.go:81 | the `set` expression writes ID, ErrorMsg, Status, UpdatedAt and (when present) Levels; Levels when absent and every other attribute keep their prior values |
| `Dynamo.ApplyUpdate` | dynamo/dynamo.go:84-88 | UpdateItem succeeds iff the key is non-empty and the store accepts; on failure nothing is written; only the keyed record changes; records stay keyed by ID |
| `Dynamo.WriteLevels` | dynamo/dynamo.go:48-91 | marshalling fails before any write; on success the record `tankID` has ErrorMsg " ", the readings, Status OK and UpdatedAt now, other attributes and records are unchanged, and the returned attributes are the new values |
| `Dynamo.WriteError` | dynamo/dynamo.go:94-130 | on success the record `tankID` has the message, Status ERROR and UpdatedAt now, keeps its Levels and other attributes, and the returned Status is ERROR; other records are unchanged; a store failure is returned |
| `Dynamo.ErrorKeepsPersistedLevels` | dynamo/dynamo.go:81 | an error recorded after a persist keeps the persisted Levels |
| `Dynamo.PersistClearsError` | dynamo/dynamo.go:56-81 | a persist after an error record leaves the same table as the persist alone |
| `Dynamo.WrittenStatusIsOkOrError` | dynamo/dynamo.go:21-27 | an update with status OK or ERROR leaves every record unchanged or in OK or ERROR |
| `Dynamo.Dynamo.constructor` | dynamo/dynamo.go:29-45 | a client over a table whose records are stored under their own IDs |
| `Dynamo.Dynamo.UpdateItem` | dynamo/dynamo.go:84-88 | the table and reply are those of ApplyUpdate |
| `Dynamo.Dynamo.UpdateLevels` | dynamo/dynamo.go:48-91 | the table and output are those of WriteLevels |
| `Dynamo.Dynamo.UpdateWithError` | dynamo/dynamo.go:94-130 | the table and output are those of WriteError |
| `ObjectStore.ParseCopySource` | processor/processor.go:173-178 | a copy source parses iff it holds a slash; the parsed bucket holds no slash and rebuilding the source with `CopySource` gives it back |
| `ObjectStore.ParseCopySourceInverse` | processor/processor.go:171-178 | the copy source `CopySource(bucket, key)` = `bucket/key` parses back to the object it was built from |
| `ObjectStore.Copied` | processor/processor.go:176-184 | a copy succeeds iff the service accepts and the source exists; then the destination holds the source bytes; otherwise nothing changes |
| `ObjectStore.Deleted` | processor/processor.go:187-191 | an accepted delete removes exactly the object; a rejected one changes nothing |
| `ObjectStore.Store.constructor` | processor/processor.go:159-166 | a store client over the given objects |
| `ObjectStore.Store.CopyObject` | processor/processor.go:176-184 | the store and reply are those of Copied |
| `ObjectStore.Store.DeleteObject` | processor/processor.go:187-191 | the store and reply are those of Deleted |
| `Processor.TankIdOf` | processor/processor.go:128-142 | an extracted ID is 2 bytes long and a wrong-length one is not, and neither holds `_`; pinned down by `ExtractionSucceedsIff` and `StoredIdIsConventional` |
| `Processor.ReadingsOf` | processor/processor.go:107-120 | every row's first field is a key of the map, and the last row's key holds the last row's reading; pinned down by `ReadingsKeys` and `ReadingsLastWins` |
| `Processor.GoodPrefix` | processor/processor.go:109-118 | the number of reads before the first read error or short record |
| `Processor.FetchStopsAt` | processor/processor.go:110-118 | the loop stops at the first bad read, with a read error returned or a panic, keeping the readings of the rows before it |
| `Processor.FetchStep` | processor/processor.go:117-119 | one more row stores its reading under its raw first field, replacing any earlier one |
| `Processor.FetchCompletes` | processor/processor.go:109-122 | end of input ends the loop with a nil error and the readings of all rows |
| `Processor.Fetch` | processor/processor.go:109-122 | the loop ends with nil iff every read is a record of two or more fields; a returned error is one of the reads' errors; a panic comes from a short record |
| `Processor.ArchiveKey` | processor/processor.go:174 | the archive key starts with `prefix/` and ends with `_<tankID>.csv`, with a timestamp between |
| `Processor.Archive` | processor/processor.go:157-194 | never panics; a session failure changes nothing; it succeeds iff session, copy and delete succeed and the copy source names an existing object, and then the source is gone |
| `Processor.WithFailureRecorded` | processor/processor.go:151-154 | only the table changes, and only by marking record `tankID` ERROR with the message; records stay keyed by ID |
| `Processor.Run` | processor/processor.go:62-95 | a nil result means the ID was extracted and kept and the row loop ended at end of input; every record the run writes is stored under its own ID; pinned down by `SuccessfulRun` and the routing lemmas |
| `Processor.Processor.constructor` | processor/processor.go:22-35 | a new processor has no tank ID, no readings and no input |
| `Processor.Processor.ProcessFile` | processor/processor.go:62-95 | stores the input, then the new tank ID, readings, table and store and the returned error are those of Run |
| `Processor.Processor.FetchFile` | processor/processor.go:101-123 | resets the readings and fills them row by row; the result is Fetch |
| `Processor.Processor.ExtractTankID` | processor/processor.go:128-142 | the tank ID is set on success and on a bad length, and kept on a bad extension or a panic; the error matches the case |
| `Processor.Processor.PersistLevels` | processor/processor.go:145-148 | UpdateLevels with the processor's readings and tank ID |
| `Processor.Processor.RecordFailure` | processor/processor.go:151-154 | UpdateWithError with the message and the processor's current tank ID |
| `Processor.Processor.CleanUpS3` | processor/processor.go:157-194 | builds the archive key, copies, and deletes the source only after a good copy; the result is Archive |
| `PipelineProperties.ConventionalKeyExtracts` | processor/processor.go:128-142 | a key `<prefix>_<id><rest>.csv<more>` yields `id`, refused only when `id` is not 2 bytes |
| `PipelineProperties.StoredIdIsConventional` | processor/processor.go:130-139 | every ID the validator stores comes from a key of that shape |
| `PipelineProperties.ExtractionSucceedsIff` | processor/processor.go:128-142 | extraction yields `id` iff the key has the conventional shape around `id` and `id` is 2 bytes |
| `PipelineProperties.ExtensionChecked` | processor/processor.go:130-134 | an extension other than `csv` is refused; after `.csv`, later pieces are never examined |
| `PipelineProperties.KeyWithoutDotPanics` | processor/processor.go:130-131 | a key without `.` panics at `pcs[1]` |
| `PipelineProperties.GoodTestKey` | processor/processor.unit_test.go:50-53 | `tankFile_20.csv` yields `20` |
| `PipelineProperties.PhonyTestKey` | processor/processor.unit_test.go:55-57 | `phonyname.jpg` is refused as an invalid file type |
| `PipelineProperties.LongIdTestKey` | processor/processor.unit_test.go:59-61 | `badid_123.csv` is refused and stores `123` |
| `PipelineProperties.ShortIdTestKey` | processor/processor.go:136-139 | `tankFile_2.csv` is refused and stores `2` |
| `PipelineProperties.ReadingsKeys` | processor/processor.go:107-119 | the reading map's keys are exactly the rows' first fields |
| `PipelineProperties.ReadingsLastWins` | processor/processor.go:119 | each key maps to `{Atoi(f0), Atoi(f1)}` of the last row with that first field |
| `PipelineProperties.ReadingsAppend` | processor/processor.go:109-120 | the readings of two batches of rows are the first batch's overridden by the second's |
| `PipelineProperties.ReadingsOrderFree` | processor/processor.go:109-120 | the order of two batches of rows with no shared first field does not matter |
| `PipelineProperties.DistinctLevelsExample` | processor/processor.go:117-119 | rows `10,500` and `20,1000` give two entries |
| `PipelineProperties.RepeatedLevelExample` | processor/processor.go:119 | rows `10,500` and `10,600` give one entry, `{10, 600}` |
| `PipelineProperties.BadNumberExample` | processor/processor.go:117-119 | row `ten,500` is stored under `ten` with level 0 |
| `PipelineProperties.FetchStopsAtReadError` | processor/processor.go:110-115 | a read error is returned, only the rows before it are in the map, and later rows are never read |
| `PipelineProperties.FetchEndOfInput` | processor/processor.go:107-122 | with no bad read the loop returns nil; the keys are the first fields; empty input gives an empty map |
| `PipelineProperties.ArchiveKeyNamesTank` | processor/processor.go:169-174 | the archive key itself follows the filename convention and names the same tank |
| `PipelineProperties.ArchiveMovesObject` | processor/processor.go:169-193 | with every call accepted, the source object moves to the archive key in the archive bucket |
| `PipelineProperties.ArchiveNeverLosesFile` | processor/processor.go:176-191 | if the source is gone after cleanup, the archive key holds its bytes |
| `PipelineProperties.CopyFailureKeepsSource` | processor/processor.go:176-184 | a failed copy changes nothing and its error is returned |
| `PipelineProperties.BadExtensionUsesStaleId` | processor/processor.go:64-69 | a bad extension keeps the old tank ID, stops the run and records the failure under that old ID |
| `PipelineProperties.SecondRunBlamesFirstTank` | processor/processor.go:128-136 | after a run on `tankFile_20.csv`, a run on `phonyname.jpg` marks tank 20 ERROR with "Invalid file type" |
| `PipelineProperties.RunStoresExtractedId` | processor/processor.go:136 | once extracted, the tank ID stays in the processor whatever the rest of the run does |
| `PipelineProperties.BadLengthUsesBadId` | processor/processor.go:136-139 | a wrong-length ID is stored, the run stops, and the failure is recorded under that ID |
| `PipelineProperties.FetchFailureRecorded` | processor/processor.go:72-77 | a read error is recorded under the tank ID and returned; nothing is persisted or archived |
| `PipelineProperties.PersistFailureRecorded` | processor/processor.go:79-84 | a failed persist is recorded as an error and its own error is returned; nothing is archived |
| `PipelineProperties.CleanupFailureKeepsOk` | processor/processor.go:86-90 | a cleanup failure is returned and the record keeps status OK with the new readings |
| `PipelineProperties.SuccessfulRun` | processor/processor.go:62-95 | a full run leaves the tank's record with its readings, status OK and ErrorMsg " "; the file is moved to the archive key; the result is nil |
| `PipelineProperties.EmptyContentOverwritesLevels` | processor/processor.go:103-119 | with the download's error discarded, empty content overwrites Levels with an empty map under status OK |
| `PipelineProperties.OriginalErrorReturned` | processor/processor.go:66-84 | the returned error never depends on whether recording the failure succeeded |
| `PipelineProperties.PanicWritesNothing` | processor/processor.go:117-136 | a panicking run writes neither the table nor the store |
| `PipelineProperties.ArchiveOnlyAfterPersist` | processor/processor.go:65-90 | the store changes only after extraction, the row loop and the persist have all succeeded |
| `PipelineProperties.RunWritesOkOrErrorOnly` | processor/processor.go:62-95 | a run writes only status OK or ERROR, and a record it sets to ERROR keeps its old Levels |

## Left out

- The S3 download (processor/processor.go:103-105) is left out. Its error is discarded and
  its bytes go straight to the CSV reader. The model takes the reader's results as given,
  so object contents are not linked to the parsed rows.
- The `encoding/csv` tokenizer is left out: a field-count mismatch, a quoting error or any
  other reader error is just a `ReadError`.
- `strconv.Atoi` clamping to the 64-bit range is not modelled; integers are unbounded.
- `dynamodbattribute.MarshalMap` is a step that can fail (a `Reply`). The shape of DynamoDB
  attribute values is not modelled.
- A failed UpdateItem is modelled as writing nothing. Retries inside the AWS SDK are not modelled.
- A record that exists before the pipeline touches it is assumed to have every attribute
  except Levels. Attributes the pipeline never writes are kept as an opaque map.
- `New`, `NewDB`, the configuration loading and session creation are plumbing and are left
  out. The one exception is the session in `cleanUpS3`, which can fail (a `Reply`).
- The status constants are a Dafny enumeration. The string each one is stored as
  (its own name) is not modelled.
- The Lambda handler (handler/tankFiles/tankFiles.go) is left out. It loops over the event's
  records and stops at the first error, and has no logic of its own to verify. Logging is
  left out as well.
- Before the first file, the Go `input` is nil; the model uses an empty object reference.
  `ProcessFile` always assigns it before use.
- S3 copy sources are URL-encoded, and S3 refuses to copy an object onto itself; neither is
  modelled. `ArchiveNeverLosesFile` therefore requires the archive reference to differ from
  the source.
- What the Lambda runtime does after a panic is not modelled. In the model a panic just ends
  the run, with whatever was changed before it.
- Concurrent runs on the same tank are out of scope (last writer wins).
