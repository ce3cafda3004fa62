/**
 * Properties of the tank-file pipeline: the filename convention the validator accepts, the
 * last-wins reading map, the archive move, and how a run routes its failures.
 */
module PipelineProperties {
  import opened Wrappers
  import opened Strings
  import opened Strconv
  import opened Dynamo
  import opened ObjectStore
  import opened Processor

  // ---------------------------------------------------------------------------------------
  // Filename convention

  /**
   * `key` is `<prefix>_<id><rest>.csv<more>`, where the prefix holds neither '.' nor '_',
   * the ID holds neither, `rest` is empty or a further '_'-piece without '.', and `more` is
   * empty or starts a further '.'-piece.
   */
  ghost predicate Conventional(key: string, prefix: string, id: string, rest: string, more: string)
  {
    && key == prefix + "_" + id + rest + ".csv" + more
    && '.' !in prefix && '_' !in prefix
    && '.' !in id && '_' !in id
    && '.' !in rest && (rest == [] || rest[0] == '_')
    && (more == [] || more[0] == '.')
  }

  ghost predicate FollowsConvention(key: string, id: string)
  {
    exists prefix, rest, more :: Conventional(key, prefix, id, rest, more)
  }

  /** A key of conventional shape yields its ID, refused only when it is not 2 bytes long. */
  lemma ConventionalKeyExtracts(key: string, prefix: string, id: string, rest: string, more: string)
    requires Conventional(key, prefix, id, rest, more)
    ensures FollowsConvention(key, id)
    ensures TankIdOf(key) == if Utf8Len(id) == 2 then Extracted(id) else BadLength(id)
  {
    var base := prefix + "_" + id + rest;
    assert key == base + ['.'] + ("csv" + more);
    SplitAtFirst(base, '.', "csv" + more);
    FirstPiece("csv", '.', more);
    assert base == prefix + ['_'] + (id + rest);
    SplitAtFirst(prefix, '_', id + rest);
    FirstPiece(id, '_', rest);
  }

  /** Whatever ID the validator stores comes from a key of conventional shape. */
  lemma StoredIdIsConventional(key: string)
    requires TankIdOf(key).Extracted? || TankIdOf(key).BadLength?
    ensures FollowsConvention(key, TankIdOf(key).id)
  {
    var pcs := Split(key, '.');
    SplitFront(key, '.');
    var more := Remainder(pcs, '.');
    var base := pcs[0];
    var segs := Split(base, '_');
    SplitFront(base, '_');
    var prefix, id, rest := segs[0], segs[1], Remainder(segs, '_');
    assert base == prefix + ['_'] + id + rest;
    assert '.' !in base;
    assert '.' !in prefix && '.' !in id && '.' !in rest;
    assert key == base + ['.'] + "csv" + more;
    assert key == prefix + "_" + id + rest + ".csv" + more;
    assert Conventional(key, prefix, id, rest, more);
  }

  /** extractTankID succeeds exactly on conventional keys whose ID is 2 bytes long. */
  lemma ExtractionSucceedsIff(key: string, id: string)
    ensures TankIdOf(key) == Extracted(id) <==> FollowsConvention(key, id) && Utf8Len(id) == 2
  {
    if TankIdOf(key) == Extracted(id) {
      StoredIdIsConventional(key);
    }
    if FollowsConvention(key, id) && Utf8Len(id) == 2 {
      var prefix, rest, more :| Conventional(key, prefix, id, rest, more);
      ConventionalKeyExtracts(key, prefix, id, rest, more);
    }
  }

  /**
   * The extension check looks only at the piece after the first '.': any other piece there
   * is refused, and later pieces are never examined.
   */
  lemma ExtensionChecked(base: string, ext: string, more: string)
    requires '.' !in base && '.' !in ext
    requires more == [] || more[0] == '.'
    ensures ext != "csv" ==> TankIdOf(base + "." + ext + more) == BadExtension
    ensures ext == "csv" ==> TankIdOf(base + "." + ext + more) == TankIdOf(base + ".csv")
  {
    SplitAtFirst(base, '.', ext + more);
    assert base + "." + ext + more == base + ['.'] + (ext + more);
    FirstPiece(ext, '.', more);
    SplitAtFirst(base, '.', ext);
    assert base + ".csv" == base + ['.'] + "csv";
    SplitWithoutSep("csv", '.');
  }

  /** A key without '.' makes the index `pcs[1]` panic. */
  lemma KeyWithoutDotPanics(key: string)
    requires '.' !in key
    ensures TankIdOf(key) == Unsplittable
  {
    SplitWithoutSep(key, '.');
  }

  /** The file names used by the unit tests, and a one-digit ID. */
  lemma GoodTestKey()
    ensures TankIdOf("tankFile_20.csv") == Extracted("20")
  {
    Utf8LenAscii("20");
    assert "tankFile_20.csv" == "tankFile" + "_" + "20" + "" + ".csv" + "";
    ConventionalKeyExtracts("tankFile_20.csv", "tankFile", "20", "", "");
  }

  lemma PhonyTestKey()
    ensures TankIdOf("phonyname.jpg") == BadExtension
  {
    assert "phonyname.jpg" == "phonyname" + "." + "jpg" + "";
    ExtensionChecked("phonyname", "jpg", "");
  }

  lemma LongIdTestKey()
    ensures TankIdOf("badid_123.csv") == BadLength("123")
  {
    Utf8LenAscii("123");
    assert "badid_123.csv" == "badid" + "_" + "123" + "" + ".csv" + "";
    ConventionalKeyExtracts("badid_123.csv", "badid", "123", "", "");
  }

  lemma ShortIdTestKey()
    ensures TankIdOf("tankFile_2.csv") == BadLength("2")
  {
    Utf8LenAscii("2");
    assert "tankFile_2.csv" == "tankFile" + "_" + "2" + "" + ".csv" + "";
    ConventionalKeyExtracts("tankFile_2.csv", "tankFile", "2", "", "");
  }

  // ---------------------------------------------------------------------------------------
  // Reading map

  /** The first fields of the rows. */
  function FirstFields(rows: seq<seq<string>>): set<string>
    requires HasTwoFields(rows)
  {
    set i | 0 <= i < |rows| :: rows[i][0]
  }

  lemma ReadingsSnoc(rows: seq<seq<string>>, row: seq<string>)
    requires HasTwoFields(rows) && |row| >= 2
    ensures HasTwoFields(rows + [row])
    ensures ReadingsOf(rows + [row]) == ReadingsOf(rows)[row[0] := RowReading(row)]
  {
    assert (rows + [row])[..|rows|] == rows;
  }

  /** The keys of the reading map are exactly the first fields of the rows. */
  lemma {:induction false} ReadingsKeys(rows: seq<seq<string>>)
    requires HasTwoFields(rows)
    ensures ReadingsOf(rows).Keys == FirstFields(rows)
  {
    if rows != [] {
      var n := |rows| - 1;
      var init := rows[..n];
      ReadingsKeys(init);
      assert rows == init + [rows[n]];
      forall k | k in FirstFields(rows) ensures k in FirstFields(init) + {rows[n][0]} {
        var i :| 0 <= i < |rows| && rows[i][0] == k;
        if i < n { assert init[i] == rows[i]; }
      }
      forall k | k in FirstFields(init) ensures k in FirstFields(rows) {
        var i :| 0 <= i < |init| && init[i][0] == k;
        assert rows[i] == init[i];
      }
    }
  }

  /** Each key holds the reading of the last row with that first field. */
  lemma {:induction false} ReadingsLastWins(rows: seq<seq<string>>, i: nat)
    requires HasTwoFields(rows)
    requires i < |rows|
    requires forall j :: i < j < |rows| ==> rows[j][0] != rows[i][0]
    ensures rows[i][0] in ReadingsOf(rows)
    ensures ReadingsOf(rows)[rows[i][0]] == RowReading(rows[i])
  {
    var n := |rows| - 1;
    if i < n {
      var init := rows[..n];
      assert init[i] == rows[i];
      ReadingsLastWins(init, i);
    }
  }

  lemma UnionUpdate(m1: ReadingMap, m2: ReadingMap, k: string, v: Reading)
    ensures (m1 + m2)[k := v] == m1 + m2[k := v]
  {
  }

  /** Reading two batches of rows: the later batch overrides the earlier one key by key. */
  lemma {:induction false} ReadingsAppend(a: seq<seq<string>>, b: seq<seq<string>>)
    requires HasTwoFields(a) && HasTwoFields(b)
    ensures HasTwoFields(a + b)
    ensures ReadingsOf(a + b) == ReadingsOf(a) + ReadingsOf(b)
  {
    if b == [] {
      assert a + b == a;
      assert ReadingsOf(a) + map[] == ReadingsOf(a);
    } else {
      var n := |b| - 1;
      var init, x := b[..n], b[n];
      assert HasTwoFields(init);
      assert b == init + [x];
      assert a + b == (a + init) + [x];
      ReadingsAppend(a, init);
      ReadingsSnoc(a + init, x);
      ReadingsSnoc(init, x);
      UnionUpdate(ReadingsOf(a), ReadingsOf(init), x[0], RowReading(x));
    }
  }

  /** Without shared level keys, the order of two batches of rows does not matter. */
  lemma ReadingsOrderFree(a: seq<seq<string>>, b: seq<seq<string>>)
    requires HasTwoFields(a) && HasTwoFields(b)
    requires FirstFields(a) !! FirstFields(b)
    ensures HasTwoFields(a + b) && HasTwoFields(b + a)
    ensures ReadingsOf(a + b) == ReadingsOf(b + a)
  {
    ReadingsAppend(a, b);
    ReadingsAppend(b, a);
    ReadingsKeys(a);
    ReadingsKeys(b);
    var ma, mb := ReadingsOf(a), ReadingsOf(b);
    assert ma + mb == mb + ma;
  }

  /** `Atoi` of a decimal literal, through the round trip with FormatInt. */
  lemma AtoiLiteral(s: string, n: int)
    requires FormatInt(n) == s
    ensures AtoiOrZero(s) == n
  {
    AtoiFormatInt(n);
  }

  lemma AtoiTens()
    ensures AtoiOrZero("10") == 10 && AtoiOrZero("20") == 20
  {
    assert FormatInt(10) == Digits(1) + [DigitChar(0)] == "10";
    AtoiLiteral("10", 10);
    assert FormatInt(20) == Digits(2) + [DigitChar(0)] == "20";
    AtoiLiteral("20", 20);
  }

  lemma AtoiHundreds()
    ensures AtoiOrZero("500") == 500 && AtoiOrZero("600") == 600
  {
    assert Digits(50) == Digits(5) + [DigitChar(0)] == "50";
    assert FormatInt(500) == Digits(50) + [DigitChar(0)] == "500";
    AtoiLiteral("500", 500);
    assert Digits(60) == Digits(6) + [DigitChar(0)] == "60";
    assert FormatInt(600) == Digits(60) + [DigitChar(0)] == "600";
    AtoiLiteral("600", 600);
  }

  lemma AtoiThousand()
    ensures AtoiOrZero("1000") == 1000
  {
    assert Digits(10) == Digits(1) + [DigitChar(0)] == "10";
    assert Digits(100) == Digits(10) + [DigitChar(0)] == "100";
    assert FormatInt(1000) == Digits(100) + [DigitChar(0)] == "1000";
    AtoiLiteral("1000", 1000);
  }

  /** Two rows with distinct levels give two entries. */
  lemma DistinctLevelsExample()
    ensures ReadingsOf([["10", "500"], ["20", "1000"]]) == map["10" := Reading(10, 500), "20" := Reading(20, 1000)]
  {
    AtoiTens();
    AtoiHundreds();
    AtoiThousand();
    ReadingsSnoc([], ["10", "500"]);
    assert [["10", "500"], ["20", "1000"]] == [["10", "500"]] + [["20", "1000"]];
    ReadingsSnoc([["10", "500"]], ["20", "1000"]);
  }

  /** A repeated level keeps the reading of its last row. */
  lemma RepeatedLevelExample()
    ensures ReadingsOf([["10", "500"], ["10", "600"]]) == map["10" := Reading(10, 600)]
  {
    AtoiTens();
    AtoiHundreds();
    ReadingsSnoc([], ["10", "500"]);
    assert [["10", "500"], ["10", "600"]] == [["10", "500"]] + [["10", "600"]];
    ReadingsSnoc([["10", "500"]], ["10", "600"]);
  }

  /** A level that is not a decimal literal is stored under its text with level 0. */
  lemma BadNumberExample()
    ensures ReadingsOf([["ten", "500"]]) == map["ten" := Reading(0, 500)]
  {
    AtoiHundreds();
    AtoiWithoutDigits("ten");
    ReadingsSnoc([], ["ten", "500"]);
  }

  /** The loop never looks past a read error: the reading map holds only the rows before it. */
  lemma FetchStopsAtReadError(before: seq<CsvRead>, msg: string, after: seq<CsvRead>)
    requires forall j :: 0 <= j < |before| ==> GoodRead(before[j])
    ensures Fetch(before + [ReadError(msg)] + after) == (ReadingsOf(RowsOf(before)), Error(msg))
  {
    var all := before + [ReadError(msg)] + after;
    assert all[|before|] == ReadError(msg);
    assert forall j :: 0 <= j < |before| ==> all[j] == before[j];
    assert all[..|before|] == before;
    FetchStopsAt(all, |before|);
  }

  /** End of input ends the loop without error; empty content gives an empty map. */
  lemma FetchEndOfInput(results: seq<CsvRead>)
    requires forall j :: 0 <= j < |results| ==> GoodRead(results[j])
    ensures Fetch(results).1 == Nil
    ensures Fetch(results).0.Keys == FirstFields(RowsOf(results))
    ensures results == [] ==> Fetch(results).0 == map[]
  {
    FetchCompletes(results);
    ReadingsKeys(RowsOf(results));
  }

  // ---------------------------------------------------------------------------------------
  // Archive

  lemma ArchiveKeyShape(prefix: string, now: int, id: string)
    requires '.' !in prefix && '_' !in prefix && '.' !in id && '_' !in id
    ensures Conventional(ArchiveKey(prefix, now, id), prefix + "/" + FormatInt(now), id, "", "")
  {
    FormatIntChars(now, '.');
    FormatIntChars(now, '_');
    var front := prefix + "/" + FormatInt(now);
    assert '.' !in front && '_' !in front;
    assert front + "_" + id + "" + ".csv" + "" == front + "_" + id + ".csv";
  }

  /** The archive key itself follows the filename convention and names the same tank. */
  lemma ArchiveKeyNamesTank(prefix: string, now: int, id: string)
    requires '.' !in prefix && '_' !in prefix && '.' !in id && '_' !in id
    ensures FollowsConvention(ArchiveKey(prefix, now, id), id)
    ensures TankIdOf(ArchiveKey(prefix, now, id)) == if Utf8Len(id) == 2 then Extracted(id) else BadLength(id)
  {
    var key, front := ArchiveKey(prefix, now, id), prefix + "/" + FormatInt(now);
    ArchiveKeyShape(prefix, now, id);
    ConventionalKeyExtracts(key, front, id, "", "");
  }

  /** With every call accepted, cleanUpS3 moves the object to the archive key. */
  lemma ArchiveMovesObject(cfg: Config, objects: Objects, input: ObjectInput, id: string, env: Env)
    requires env.session.Accept? && env.copy.Accept? && env.delete.Accept?
    requires '/' !in input.bucket
    requires ObjectRef(input.bucket, input.key) in objects
    ensures var dst := ObjectRef(cfg.s3Bucket, ArchiveKey(cfg.s3FilePrefix, env.archiveClock, id));
      Archive(cfg, objects, input, id, env)
        == (objects[dst := objects[ObjectRef(input.bucket, input.key)]] - {ObjectRef(input.bucket, input.key)}, Nil)
  {
    ParseCopySourceInverse(input.bucket, input.key);
  }

  /**
   * The source is deleted only after a good copy: if it is gone afterwards, the archive key
   * holds its bytes (when the archive key differs from the source).
   */
  lemma ArchiveNeverLosesFile(cfg: Config, objects: Objects, input: ObjectInput, id: string, env: Env)
    requires '/' !in input.bucket
    requires ObjectRef(input.bucket, input.key) in objects
    requires ObjectRef(cfg.s3Bucket, ArchiveKey(cfg.s3FilePrefix, env.archiveClock, id)) != ObjectRef(input.bucket, input.key)
    ensures var after := Archive(cfg, objects, input, id, env).0;
      var dst := ObjectRef(cfg.s3Bucket, ArchiveKey(cfg.s3FilePrefix, env.archiveClock, id));
      ObjectRef(input.bucket, input.key) !in after ==>
        dst in after && after[dst] == objects[ObjectRef(input.bucket, input.key)]
  {
    ParseCopySourceInverse(input.bucket, input.key);
  }

  /** A failed copy leaves the store as it was and is returned. */
  lemma CopyFailureKeepsSource(cfg: Config, objects: Objects, input: ObjectInput, id: string, env: Env)
    requires env.session.Accept? && env.copy.Reject?
    ensures Archive(cfg, objects, input, id, env) == (objects, Error(env.copy.msg))
  {
  }

  // ---------------------------------------------------------------------------------------
  // Runs

  /**
   * A key with the wrong extension does not change the stored tank ID, so the failure is
   * recorded on the record of whatever tank the processor handled last.
   */
  lemma BadExtensionUsesStaleId(cfg: Config, w: World, input: ObjectInput, env: Env)
    requires TankIdOf(input.key) == BadExtension
    ensures var (w', e) := Run(cfg, w, input, env);
      && e == Error(InvalidFileType)
      && w'.tankID == w.tankID && w'.depths == w.depths && w'.objects == w.objects
      && w'.table == WriteError(w.table, InvalidFileType, w.tankID, env.errorClock, env.errorWrite).0
  {
  }

  /** A second file with a bad name is blamed on tank "20" handled just before. */
  lemma SecondRunBlamesFirstTank(cfg: Config, w: World, bucket: string, env1: Env, env2: Env)
    requires env2.errorWrite.Accept?
    ensures var first := Run(cfg, w, ObjectInput(bucket, "tankFile_20.csv"), env1).0;
      var second := Run(cfg, first, ObjectInput(bucket, "phonyname.jpg"), env2).0;
      && "20" in second.table
      && second.table["20"].status == ERROR
      && second.table["20"].errorMsg == InvalidFileType
  {
    GoodTestKey();
    PhonyTestKey();
    var first := Run(cfg, w, ObjectInput(bucket, "tankFile_20.csv"), env1).0;
    RunStoresExtractedId(cfg, w, ObjectInput(bucket, "tankFile_20.csv"), env1);
    BadExtensionUsesStaleId(cfg, first, ObjectInput(bucket, "phonyname.jpg"), env2);
  }

  /** Once extracted, the ID stays in the processor whatever happens later in the run. */
  lemma RunStoresExtractedId(cfg: Config, w: World, input: ObjectInput, env: Env)
    requires TankIdOf(input.key).Extracted?
    ensures Run(cfg, w, input, env).0.tankID == TankIdOf(input.key).id
  {
  }

  /** An ID of the wrong length is stored before it is refused, and the failure goes to it. */
  lemma BadLengthUsesBadId(cfg: Config, w: World, input: ObjectInput, env: Env)
    requires TankIdOf(input.key).BadLength?
    ensures var (w', e) := Run(cfg, w, input, env);
      var id := TankIdOf(input.key).id;
      && e == Error(BadTankIdLength)
      && w'.tankID == id && w'.depths == w.depths && w'.objects == w.objects
      && w'.table == WriteError(w.table, BadTankIdLength, id, env.errorClock, env.errorWrite).0
  {
  }

  /** A read error is recorded under the extracted ID and returned; nothing is persisted. */
  lemma FetchFailureRecorded(cfg: Config, w: World, input: ObjectInput, env: Env)
    requires TankIdOf(input.key).Extracted?
    requires Fetch(env.csv).1.Error?
    ensures var (w', e) := Run(cfg, w, input, env);
      var id := TankIdOf(input.key).id;
      && e == Fetch(env.csv).1
      && w'.tankID == id && w'.depths == Fetch(env.csv).0 && w'.objects == w.objects
      && w'.table == WriteError(w.table, e.msg, id, env.errorClock, env.errorWrite).0
  {
  }

  /** A failed persist is itself recorded as an error, and its error is returned. */
  lemma PersistFailureRecorded(cfg: Config, w: World, input: ObjectInput, env: Env)
    requires TankIdOf(input.key).Extracted?
    requires Fetch(env.csv).1 == Nil
    requires WriteLevels(w.table, Fetch(env.csv).0, TankIdOf(input.key).id, env.levelsClock, env.marshal, env.levelsWrite).1.Failure?
    ensures var (w', e) := Run(cfg, w, input, env);
      var id := TankIdOf(input.key).id;
      var failure := WriteLevels(w.table, Fetch(env.csv).0, id, env.levelsClock, env.marshal, env.levelsWrite).1;
      && e == Error(failure.error)
      && w'.objects == w.objects
      && w'.table == WriteError(w.table, failure.error, id, env.errorClock, env.errorWrite).0
  {
  }

  /** A cleanup failure is returned, but the record keeps the OK status just written. */
  lemma CleanupFailureKeepsOk(cfg: Config, w: World, input: ObjectInput, env: Env)
    requires TankIdOf(input.key).Extracted?
    requires Fetch(env.csv).1 == Nil
    requires env.marshal.Accept? && env.levelsWrite.Accept?
    requires Archive(cfg, w.objects, input, TankIdOf(input.key).id, env).1.Error?
    ensures var (w', e) := Run(cfg, w, input, env);
      var id := TankIdOf(input.key).id;
      && e == Archive(cfg, w.objects, input, id, env).1
      && id in w'.table
      && w'.table[id].status == OK
      && w'.table[id].errorMsg == BlankErrorMsg
      && w'.table[id].levels == Some(Fetch(env.csv).0)
  {
  }

  /**
   * A full run: the tank's record holds the file's readings with status OK, the source is
   * gone and the archive key holds its bytes.
   */
  lemma SuccessfulRun(cfg: Config, w: World, input: ObjectInput, env: Env)
    requires TankIdOf(input.key).Extracted?
    requires forall j :: 0 <= j < |env.csv| ==> GoodRead(env.csv[j])
    requires env.marshal.Accept? && env.levelsWrite.Accept?
    requires env.session.Accept? && env.copy.Accept? && env.delete.Accept?
    requires '/' !in input.bucket
    requires ObjectRef(input.bucket, input.key) in w.objects
    ensures var (w', e) := Run(cfg, w, input, env);
      var id := TankIdOf(input.key).id;
      var src := ObjectRef(input.bucket, input.key);
      var dst := ObjectRef(cfg.s3Bucket, ArchiveKey(cfg.s3FilePrefix, env.archiveClock, id));
      && e == Nil
      && w'.tankID == id
      && id in w'.table
      && w'.table[id] == TankRecord(id, BlankErrorMsg, Some(ReadingsOf(RowsOf(env.csv))), OK, env.levelsClock,
                                    if id in w.table then w.table[id].others else map[])
      && w'.objects == w.objects[dst := w.objects[src]] - {src}
  {
    var id := TankIdOf(input.key).id;
    FetchCompletes(env.csv);
    var depths := ReadingsOf(RowsOf(env.csv));
    assert Fetch(env.csv) == (depths, Nil);
    var w2 := w.(tankID := id, depths := depths);
    var (t3, persisted) := WriteLevels(w.table, depths, id, env.levelsClock, env.marshal, env.levelsWrite);
    assert persisted.Success?;
    ArchiveMovesObject(cfg, w.objects, input, id, env);
    var (objects, archived) := Archive(cfg, w.objects, input, id, env);
    assert Run(cfg, w, input, env) == (w2.(table := t3, objects := objects), archived);
  }

  /**
   * The download's error is discarded, so an object that could not be read reaches the
   * persist step as empty content: Levels is overwritten with an empty map under status OK.
   */
  lemma EmptyContentOverwritesLevels(cfg: Config, w: World, input: ObjectInput, env: Env)
    requires TankIdOf(input.key).Extracted?
    requires env.csv == []
    requires env.marshal.Accept? && env.levelsWrite.Accept?
    ensures var id := TankIdOf(input.key).id;
      var w' := Run(cfg, w, input, env).0;
      && id in w'.table
      && w'.table[id].levels == Some(map[])
      && w'.table[id].status == OK
      && w'.table[id].errorMsg == BlankErrorMsg
  {
    FetchEndOfInput([]);
    assert Fetch([]) == (map[], Nil);
  }

  /** The error a run returns never depends on whether recording the failure worked. */
  lemma OriginalErrorReturned(cfg: Config, w: World, input: ObjectInput, env: Env, reply: Reply)
    ensures Run(cfg, w, input, env).1 == Run(cfg, w, input, env.(errorWrite := reply)).1
  {
  }

  /** A panic unwinds the run before any write to the table or the store. */
  lemma PanicWritesNothing(cfg: Config, w: World, input: ObjectInput, env: Env)
    requires Run(cfg, w, input, env).1 == Panic
    ensures Run(cfg, w, input, env).0.table == w.table
    ensures Run(cfg, w, input, env).0.objects == w.objects
  {
    match TankIdOf(input.key)
    case Unsplittable =>
    case BadExtension =>
    case BadLength(_) =>
    case Extracted(id) =>
  }

  /** The store is touched only after the readings were persisted. */
  lemma ArchiveOnlyAfterPersist(cfg: Config, w: World, input: ObjectInput, env: Env)
    requires Run(cfg, w, input, env).0.objects != w.objects
    ensures TankIdOf(input.key).Extracted?
    ensures Fetch(env.csv).1 == Nil
    ensures WriteLevels(w.table, Fetch(env.csv).0, TankIdOf(input.key).id, env.levelsClock, env.marshal, env.levelsWrite).1.Success?
  {
  }

  /** `t` differs from `t0` only in records set to OK, or set to ERROR with their old Levels. */
  ghost predicate OkOrErrorOnly(t0: Table, t: Table)
  {
    forall id :: id in t ==>
      || (id in t0 && t[id] == t0[id])
      || t[id].status == OK
      || (t[id].status == ERROR && t[id].levels == (if id in t0 then t0[id].levels else None))
  }

  lemma ErrorWriteOkOrErrorOnly(t: Table, msg: string, id: string, now: int, write: Reply)
    ensures OkOrErrorOnly(t, WriteError(t, msg, id, now, write).0)
  {
  }

  lemma LevelsWriteOkOrErrorOnly(t: Table, depths: ReadingMap, id: string, now: int, marshal: Reply, write: Reply)
    ensures OkOrErrorOnly(t, WriteLevels(t, depths, id, now, marshal, write).0)
  {
  }

  /**
   * A run writes only OK and ERROR, and a record it leaves in ERROR keeps the Levels it had
   * (none, for a record the run created).
   */
  lemma RunWritesOkOrErrorOnly(cfg: Config, w: World, input: ObjectInput, env: Env)
    ensures OkOrErrorOnly(w.table, Run(cfg, w, input, env).0.table)
  {
    var t := Run(cfg, w, input, env).0.table;
    match TankIdOf(input.key)
    case Unsplittable =>
      assert t == w.table;
    case BadExtension =>
      ErrorWriteOkOrErrorOnly(w.table, InvalidFileType, w.tankID, env.errorClock, env.errorWrite);
    case BadLength(id) =>
      ErrorWriteOkOrErrorOnly(w.table, BadTankIdLength, id, env.errorClock, env.errorWrite);
    case Extracted(id) =>
      var (depths, fetched) := Fetch(env.csv);
      if fetched.Panic? {
        assert t == w.table;
      } else if fetched.Error? {
        ErrorWriteOkOrErrorOnly(w.table, fetched.msg, id, env.errorClock, env.errorWrite);
      } else {
        var (t3, persisted) := WriteLevels(w.table, depths, id, env.levelsClock, env.marshal, env.levelsWrite);
        if persisted.Failure? {
          assert t3 == w.table;
          ErrorWriteOkOrErrorOnly(w.table, persisted.error, id, env.errorClock, env.errorWrite);
        } else {
          assert t == t3;
          LevelsWriteOkOrErrorOnly(w.table, depths, id, env.levelsClock, env.marshal, env.levelsWrite);
        }
      }
  }
}
