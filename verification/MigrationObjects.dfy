/** What a migration run does to the objects in the bucket, and which copies a later run tries again. */
module MigrationObjects {
  import opened Wrappers
  import opened Strings
  import opened Naming
  import opened PayloadIds
  import opened MigrationPlan
  import opened MigrationRun
  import opened MigrationAccounting

  function ExecutionsPrefix(setup: Setup): string {
    setup.root + "/executions/"
  }

  lemma KeysAreUnderPrefix(setup: Setup, payload: string, execution: string, file: File)
    ensures ExecutionsPrefix(setup) <= ExecutionKey(setup.root, payload, execution, file)
  {
    var key := ExecutionKey(setup.root, payload, execution, file);
    assert key == ExecutionsPrefix(setup) + (payload + "/" + execution + "/" + FileName(file));
  }

  /** The object is there after exactly if it was before, with what it held. */
  predicate Kept(before: Bucket, after: Bucket, name: string) {
    (name in after <==> name in before) && (name in before ==> after[name] == before[name])
  }

  lemma CopiesKeepOthers(setup: Setup, bucket: Bucket, rec: MigrationRecord, w: Weather, name: string)
    requires !(ExecutionsPrefix(setup) <= name)
    ensures Kept(bucket, CopyInput(setup, bucket, rec, w).bucket, name)
    ensures Kept(bucket, CopyOutput(setup, bucket, rec, w).bucket, name)
  {
    if rec.payloadId.Some? {
      KeysAreUnderPrefix(setup, rec.payloadId.value, rec.executionId, InputFile);
      KeysAreUnderPrefix(setup, rec.payloadId.value, rec.executionId, OutputFile);
    }
  }

  lemma RecordKeepsOthers(setup: Setup, bucket: Bucket, rec: MigrationRecord, w: Weather, name: string)
    requires !(ExecutionsPrefix(setup) <= name)
    ensures Kept(bucket, MigrateRecord(setup, bucket, rec, w).bucket, name)
  {
    CopiesKeepOthers(setup, bucket, rec, w, name);
    CopiesKeepOthers(setup, CopyInput(setup, bucket, rec, w).bucket, rec, w, name);
    assert MigrateRecord(setup, bucket, rec, w).bucket in
           {bucket, CopyPayloadsOf(setup, bucket, rec, w).bucket};
  }

  /** A whole run leaves every object outside the executions prefix as it was. */
  lemma {:induction false} RunKeepsOthers(setup: Setup, world: World, keys: seq<Key>, weather: Key -> Weather,
                                          name: string)
    requires !(ExecutionsPrefix(setup) <= name) && forall k | k in keys :: k in world.table
    ensures Kept(world.bucket, MigrateAll(setup, world, keys, weather).bucket, name)
    decreases |keys|
  {
    if keys != [] {
      RecordKeepsOthers(setup, world.bucket, RecordOf(keys[0], world.table[keys[0]]), weather(keys[0]), name);
      RunKeepsOthers(setup, MigrateKey(setup, world, keys[0], weather(keys[0])), keys[1..], weather, name);
    }
  }

  /** Where an input is copied from is never where it is copied to. */
  lemma SourceIsNotTarget(setup: Setup, id: string, execution: string, file: File)
    ensures id + "/input.json" != ExecutionKey(setup.root, id, execution, file)
  {
    assert |ExecutionKey(setup.root, id, execution, file)| > |id + "/input.json"|;
  }

  /** The input arrives, whole, exactly when a real run meets it and the copy succeeds; its source stays. */
  lemma InputArrivesIff(setup: Setup, bucket: Bucket, rec: MigrationRecord, w: Weather)
    requires rec.payloadId.Some? && rec.executionId != ""
    ensures var source := rec.payloadId.value + "/input.json";
            var target := ExecutionKey(setup.root, rec.payloadId.value, rec.executionId, InputFile);
            var after := CopyInput(setup, bucket, rec, w).bucket;
            && Kept(bucket, after, source)
            && (if !setup.dryRun && w.copy.Fine? && source in bucket
                then target in after && after[target] == bucket[source]
                else Kept(bucket, after, target))
  {
    SourceIsNotTarget(setup, rec.payloadId.value, rec.executionId, InputFile);
  }

  /** The output arrives exactly for a recent COMPLETED record whose execution still has one and whose put succeeds. */
  lemma OutputArrivesIff(setup: Setup, bucket: Bucket, rec: MigrationRecord, w: Weather)
    requires rec.payloadId.Some? && rec.executionId != ""
    ensures var target := ExecutionKey(setup.root, rec.payloadId.value, rec.executionId, OutputFile);
            var after := CopyOutput(setup, bucket, rec, w).bucket;
            if !setup.dryRun && rec.completed && w.recent && w.described.Output? && w.put.Fine?
            then target in after && after[target] == w.described.body
            else Kept(bucket, after, target)
  {
  }

  lemma InputIsNotOutput(setup: Setup, id: string, execution: string)
    ensures ExecutionKey(setup.root, id, execution, InputFile) != ExecutionKey(setup.root, id, execution, OutputFile)
  {
    assert |FileName(InputFile)| != |FileName(OutputFile)|;
  }

  /** Each copy writes at most its own target. */
  lemma CopiesTouchTargets(setup: Setup, bucket: Bucket, rec: MigrationRecord, w: Weather, name: string)
    requires rec.payloadId.Some?
    ensures name != ExecutionKey(setup.root, rec.payloadId.value, rec.executionId, InputFile) ==>
              Kept(bucket, CopyInput(setup, bucket, rec, w).bucket, name)
    ensures name != ExecutionKey(setup.root, rec.payloadId.value, rec.executionId, OutputFile) ==>
              Kept(bucket, CopyOutput(setup, bucket, rec, w).bucket, name)
  {
  }

  lemma BothCopies(setup: Setup, bucket: Bucket, rec: MigrationRecord, w: Weather)
    ensures var p := CopyInput(setup, bucket, rec, w);
            CopyPayloadsOf(setup, bucket, rec, w).bucket in {p.bucket, CopyOutput(setup, p.bucket, rec, w).bucket}
  {
  }

  lemma InputTargetIsKept(setup: Setup, bucket: Bucket, rec: MigrationRecord, w: Weather)
    requires rec.payloadId.Some? && rec.executionId != "" && w.copy.ClientFault?
    ensures Kept(bucket, CopyPayloadsOf(setup, bucket, rec, w).bucket,
                 ExecutionKey(setup.root, rec.payloadId.value, rec.executionId, InputFile))
  {
    var target := ExecutionKey(setup.root, rec.payloadId.value, rec.executionId, InputFile);
    InputIsNotOutput(setup, rec.payloadId.value, rec.executionId);
    InputArrivesIff(setup, bucket, rec, w);
    CopiesTouchTargets(setup, CopyInput(setup, bucket, rec, w).bucket, rec, w, target);
    BothCopies(setup, bucket, rec, w);
  }

  lemma OutputTargetIsKept(setup: Setup, bucket: Bucket, rec: MigrationRecord, w: Weather)
    requires rec.payloadId.Some? && rec.executionId != ""
    requires w.described.DescribeFault? || (w.described.Output? && w.put.ClientFault?)
    ensures Kept(bucket, CopyPayloadsOf(setup, bucket, rec, w).bucket,
                 ExecutionKey(setup.root, rec.payloadId.value, rec.executionId, OutputFile))
  {
    var target := ExecutionKey(setup.root, rec.payloadId.value, rec.executionId, OutputFile);
    InputIsNotOutput(setup, rec.payloadId.value, rec.executionId);
    CopiesTouchTargets(setup, bucket, rec, w, target);
    OutputArrivesIff(setup, CopyInput(setup, bucket, rec, w).bucket, rec, w);
    BothCopies(setup, bucket, rec, w);
  }

  lemma BucketAfterCopies(setup: Setup, bucket: Bucket, rec: MigrationRecord, w: Weather)
    ensures MigrateRecord(setup, bucket, rec, w).bucket ==
            if rec.alreadyMigrated then bucket else CopyPayloadsOf(setup, bucket, rec, w).bucket
  {
  }

  /**
   A record without a claim time is written exactly when there is something to write, the update goes through, and no
   copy raises anything but a ClientError; `CopyRaises` lists the cases.
   */
  lemma CopyHoldsBackIff(setup: Setup, bucket: Bucket, key: Key, a: Attrs, w: Weather)
    requires !setup.dryRun && ClaimedAt !in a
    ensures MigrateRecord(setup, bucket, RecordOf(key, a), w).wrote <==>
            !CopyRaises(setup, RecordOf(key, a), w) && w.update.Fine? && !Normal(a)
  {
    NoopIffNormal(a);
    CategoryIsCounted(setup, bucket, RecordOf(key, a), w);
  }

  /** A copy that fails with a ClientError leaves nothing where the input or the output belongs. */
  lemma FaultyCopyStoresNothing(setup: Setup, bucket: Bucket, key: Key, a: Attrs, w: Weather)
    requires PayloadIdOf(key).Some? && ExecutionId(a) != ""
    ensures var after := MigrateRecord(setup, bucket, RecordOf(key, a), w).bucket;
            && (w.copy.ClientFault? ==>
                  Kept(bucket, after, ExecutionKey(setup.root, PayloadIdOf(key).value, ExecutionId(a), InputFile)))
            && (w.described.DescribeFault? || (w.described.Output? && w.put.ClientFault?) ==>
                  Kept(bucket, after, ExecutionKey(setup.root, PayloadIdOf(key).value, ExecutionId(a), OutputFile)))
  {
    var rec := RecordOf(key, a);
    BucketAfterCopies(setup, bucket, rec, w);
    if w.copy.ClientFault? {
      InputTargetIsKept(setup, bucket, rec, w);
    }
    if w.described.DescribeFault? || (w.described.Output? && w.put.ClientFault?) {
      OutputTargetIsKept(setup, bucket, rec, w);
    }
  }

  /** What a run leaves of a record. */
  function Left(setup: Setup, bucket: Bucket, key: Key, a: Attrs, w: Weather): Attrs {
    if MigrateRecord(setup, bucket, RecordOf(key, a), w).wrote then Migrated(a) else a
  }

  lemma LeftAttributes(setup: Setup, bucket: Bucket, key: Key, a: Attrs, w: Weather)
    ensures var m, b := MigrateRecord(setup, bucket, RecordOf(key, a), w), Left(setup, bucket, key, a, w);
            && ExecutionId(b) == ExecutionId(a)
            && (ClaimedAt in b <==> ClaimedAt in a || (m.wrote && Created in a))
            && OriginalState(b) == (if m.wrote && OriginalState(a) == "COMPLETED" then "SUCCEEDED"
                                    else OriginalState(a))
  {
    MigratedAttributes(a);
    MigratedState(a);
    SameExecution(a, Migrated(a));
  }

  /** For a record with an execution, doing nothing means that it was already migrated. */
  lemma LeftAloneIff(setup: Setup, bucket: Bucket, rec: MigrationRecord, w: Weather)
    requires rec.executionId != ""
    ensures MigrateRecord(setup, bucket, rec, w) == Migration(bucket, false, multiset{}, false) <==> rec.alreadyMigrated
  {
    if !rec.alreadyMigrated {
      LoudCopies(setup, bucket, rec, w);
      var p := CopyPayloadsOf(setup, bucket, rec, w);
      assert p.raised || |p.counts| >= 1;
    }
  }

  /**
   After a run with any replies, a record with an execution is left alone by every later one, its input included,
   exactly when it had a claim time, or was updated and had a creation time to make one of.
   */
  lemma InputIsFinalIff(setup: Setup, bucket: Bucket, key: Key, a: Attrs, w: Weather,
                        later: Setup, laterBucket: Bucket, laterWeather: Weather)
    requires ExecutionId(a) != ""
    ensures var m, b := MigrateRecord(setup, bucket, RecordOf(key, a), w), Left(setup, bucket, key, a, w);
            var n := MigrateRecord(later, laterBucket, RecordOf(key, b), laterWeather);
            n == Migration(laterBucket, false, multiset{}, false) <==> ClaimedAt in a || (m.wrote && Created in a)
  {
    LeftAttributes(setup, bucket, key, a, w);
    LeftAloneIff(later, laterBucket, RecordOf(key, Left(setup, bucket, key, a, w)), laterWeather);
  }

  /** A run that is refused the output counts it exactly for the records whose output it tries to fetch. */
  lemma RefusedOutputIsCounted(setup: Setup, bucket: Bucket, rec: MigrationRecord, w: Weather)
    requires !setup.dryRun && rec.payloadId.Some? && rec.executionId != ""
    requires w.recent && !w.copy.Exception? && w.described.DescribeFault?
    ensures MigrateRecord(setup, bucket, rec, w).counts[SfnOutputErrors] == 1 <==>
            !rec.alreadyMigrated && rec.completed
  {
    var p := CopyInput(setup, bucket, rec, w);
    assert !p.raised && p.counts[SfnOutputErrors] == 0;
    assert UpdateDb(setup, rec, w).counts[SfnOutputErrors] == 0;
  }

  /**
   After a run with any replies, a later one within the cutoff fetches the output again exactly when the record is a
   COMPLETED one without a claim time that was not updated: the new state ends it, with or without a claim time.
   */
  lemma OutputIsRetriedIff(setup: Setup, bucket: Bucket, key: Key, a: Attrs, w: Weather,
                           later: Setup, laterBucket: Bucket, laterWeather: Weather)
    requires PayloadIdOf(key).Some? && ExecutionId(a) != "" && !later.dryRun
    requires laterWeather.recent && !laterWeather.copy.Exception? && laterWeather.described.DescribeFault?
    ensures var m, b := MigrateRecord(setup, bucket, RecordOf(key, a), w), Left(setup, bucket, key, a, w);
            var n := MigrateRecord(later, laterBucket, RecordOf(key, b), laterWeather);
            n.counts[SfnOutputErrors] == 1 <==> OriginalState(a) == "COMPLETED" && ClaimedAt !in a && !m.wrote
  {
    LeftAttributes(setup, bucket, key, a, w);
    RefusedOutputIsCounted(later, laterBucket, RecordOf(key, Left(setup, bucket, key, a, w)), laterWeather);
  }

  /** A legacy record that has an error and an execution, and neither state nor creation time. */
  function Undated(arn: string, error: string): Attrs {
    map[LastError := Text(error), Executions := TextList([arn])]
  }

  lemma UndatedAttributes(arn: string, error: string)
    ensures var a := Undated(arn, error);
            && ExecutionId(a) == AfterLast(arn, ':') && OriginalState(a) == ""
            && LastError in a && ClaimedAt !in a && Created !in a
  {
  }

  lemma UndatedIsUpdated(setup: Setup, bucket: Bucket, key: Key, a: Attrs, w: Weather)
    requires !setup.dryRun && PayloadIdOf(key).Some? && ExecutionId(a) != ""
    requires ClaimedAt !in a && OriginalState(a) == "" && LastError in a
    requires w.copy.ClientFault? && w.update.Fine?
    ensures var m := MigrateRecord(setup, bucket, RecordOf(key, a), w); m.wrote && m.bucket == bucket
  {
    assert !Normal(a) && !CopyRaises(setup, RecordOf(key, a), w);
    CopyHoldsBackIff(setup, bucket, key, a, w);
    BucketAfterCopies(setup, bucket, RecordOf(key, a), w);
  }

  lemma CopiesInputOnly(setup: Setup, bucket: Bucket, rec: MigrationRecord, w: Weather)
    requires !setup.dryRun && rec.payloadId.Some? && rec.executionId != ""
    requires !rec.alreadyMigrated && !rec.completed && w.copy.Fine?
    requires rec.payloadId.value + "/input.json" in bucket
    ensures MigrateRecord(setup, bucket, rec, w).bucket ==
            bucket[ExecutionKey(setup.root, rec.payloadId.value, rec.executionId, InputFile)
                     := bucket[rec.payloadId.value + "/input.json"]]
  {
    BucketAfterCopies(setup, bucket, rec, w);
  }

  /** A concrete record whose input is refused, which is updated all the same, and whose input the next run copies. */
  lemma UndatedIsCopiedAgain(setup: Setup, bucket: Bucket, key: Key, arn: string, error: string,
                             w: Weather, next: Weather)
    requires !setup.dryRun && PayloadIdOf(key).Some? && AfterLast(arn, ':') != ""
    requires w.copy.ClientFault? && w.update.Fine? && next.copy.Fine?
    requires PayloadIdOf(key).value + "/input.json" in bucket
    ensures var a := Undated(arn, error);
            var m, b := MigrateRecord(setup, bucket, RecordOf(key, a), w), Left(setup, bucket, key, a, w);
            && m.wrote && m.bucket == bucket
            && MigrateRecord(setup, bucket, RecordOf(key, b), next).bucket ==
               bucket[ExecutionKey(setup.root, PayloadIdOf(key).value, AfterLast(arn, ':'), InputFile)
                        := bucket[PayloadIdOf(key).value + "/input.json"]]
  {
    var a := Undated(arn, error);
    UndatedAttributes(arn, error);
    UndatedIsUpdated(setup, bucket, key, a, w);
    LeftAttributes(setup, bucket, key, a, w);
    CopiesInputOnly(setup, bucket, RecordOf(key, Left(setup, bucket, key, a, w)), next);
  }

  // A whole run: every target ends with its own source, because no other record writes there.

  /** Where the copies of a record go. */
  function Target(setup: Setup, key: Key, a: Attrs, file: File): string
    requires PayloadIdOf(key).Some?
  {
    ExecutionKey(setup.root, PayloadIdOf(key).value, ExecutionId(a), file)
  }

  /** The record, if it can be copied at all, is not copied to `name`. */
  predicate Spares(setup: Setup, key: Key, a: Attrs, name: string) {
    PayloadIdOf(key).Some? ==> forall file :: Target(setup, key, a, file) != name
  }

  lemma SparedByRecord(setup: Setup, bucket: Bucket, key: Key, a: Attrs, w: Weather, name: string)
    requires Spares(setup, key, a, name)
    ensures Kept(bucket, MigrateRecord(setup, bucket, RecordOf(key, a), w).bucket, name)
  {
    var rec := RecordOf(key, a);
    BucketAfterCopies(setup, bucket, rec, w);
    BothCopies(setup, bucket, rec, w);
    if PayloadIdOf(key).Some? {
      assert Target(setup, key, a, InputFile) != name && Target(setup, key, a, OutputFile) != name;
      CopiesTouchTargets(setup, bucket, rec, w, name);
      CopiesTouchTargets(setup, CopyInput(setup, bucket, rec, w).bucket, rec, w, name);
    }
  }

  predicate AllSpare(setup: Setup, table: map<Key, Attrs>, keys: seq<Key>, name: string) {
    forall k | k in keys :: k in table && Spares(setup, k, table[k], name)
  }

  lemma SparedByRest(setup: Setup, world: World, keys: seq<Key>, w: Weather, name: string)
    requires keys != [] && Distinct(keys) && AllSpare(setup, world.table, keys[1..], name) && keys[0] in world.table
    ensures AllSpare(setup, MigrateKey(setup, world, keys[0], w).table, keys[1..], name)
  {
    DistinctTail(keys);
    StepTable(setup, world, keys[0], w);
  }

  lemma {:induction false} SparedByRun(setup: Setup, world: World, keys: seq<Key>, weather: Key -> Weather,
                                       name: string)
    requires Distinct(keys) && AllSpare(setup, world.table, keys, name)
    ensures Kept(world.bucket, MigrateAll(setup, world, keys, weather).bucket, name)
    decreases |keys|
  {
    if keys != [] {
      var w := weather(keys[0]);
      DistinctTail(keys);
      SparedByRecord(setup, world.bucket, keys[0], world.table[keys[0]], w, name);
      SparedByRest(setup, world, keys, w, name);
      SparedByRun(setup, MigrateKey(setup, world, keys[0], w), keys[1..], weather, name);
    }
  }

  /** What a record without a claim time leaves under the target of its input: the source, or what was there. */
  predicate InputEnds(setup: Setup, before: Bucket, after: Bucket, key: Key, a: Attrs, w: Weather)
    requires PayloadIdOf(key).Some?
  {
    var source, target := PayloadIdOf(key).value + "/input.json", Target(setup, key, a, InputFile);
    if !setup.dryRun && w.copy.Fine? && source in before && ClaimedAt !in a
    then target in after && after[target] == before[source]
    else Kept(before, after, target)
  }

  /** The same for the output, which needs an input copy that does not raise. */
  predicate OutputEnds(setup: Setup, before: Bucket, after: Bucket, key: Key, a: Attrs, w: Weather)
    requires PayloadIdOf(key).Some?
  {
    var target := Target(setup, key, a, OutputFile);
    if !setup.dryRun && !w.copy.Exception? && OriginalState(a) == "COMPLETED" && w.recent
       && w.described.Output? && w.put.Fine? && ClaimedAt !in a
    then target in after && after[target] == w.described.body
    else Kept(before, after, target)
  }

  lemma RecordEndsInput(setup: Setup, bucket: Bucket, key: Key, a: Attrs, w: Weather)
    requires PayloadIdOf(key).Some? && ExecutionId(a) != ""
    ensures InputEnds(setup, bucket, MigrateRecord(setup, bucket, RecordOf(key, a), w).bucket, key, a, w)
  {
    var rec := RecordOf(key, a);
    BucketAfterCopies(setup, bucket, rec, w);
    BothCopies(setup, bucket, rec, w);
    InputArrivesIff(setup, bucket, rec, w);
    InputIsNotOutput(setup, PayloadIdOf(key).value, ExecutionId(a));
    CopiesTouchTargets(setup, CopyInput(setup, bucket, rec, w).bucket, rec, w, Target(setup, key, a, InputFile));
  }

  lemma RecordEndsOutput(setup: Setup, bucket: Bucket, key: Key, a: Attrs, w: Weather)
    requires PayloadIdOf(key).Some? && ExecutionId(a) != ""
    ensures OutputEnds(setup, bucket, MigrateRecord(setup, bucket, RecordOf(key, a), w).bucket, key, a, w)
  {
    var rec := RecordOf(key, a);
    var p := CopyInput(setup, bucket, rec, w);
    BucketAfterCopies(setup, bucket, rec, w);
    InputRaises(setup, bucket, rec, w);
    InputIsNotOutput(setup, PayloadIdOf(key).value, ExecutionId(a));
    CopiesTouchTargets(setup, bucket, rec, w, Target(setup, key, a, OutputFile));
    OutputArrivesIff(setup, p.bucket, rec, w);
  }

  /** Both targets of one record. */
  predicate TargetsEnd(setup: Setup, before: Bucket, after: Bucket, key: Key, a: Attrs, w: Weather)
    requires PayloadIdOf(key).Some?
  {
    InputEnds(setup, before, after, key, a, w) && OutputEnds(setup, before, after, key, a, w)
  }

  lemma TargetsStay(setup: Setup, before: Bucket, mid: Bucket, after: Bucket, key: Key, a: Attrs, w: Weather)
    requires PayloadIdOf(key).Some? && TargetsEnd(setup, before, mid, key, a, w)
    requires forall file :: Kept(mid, after, Target(setup, key, a, file))
    ensures TargetsEnd(setup, before, after, key, a, w)
  {
    assert Kept(mid, after, Target(setup, key, a, InputFile));
    assert Kept(mid, after, Target(setup, key, a, OutputFile));
  }

  lemma TargetsWait(setup: Setup, before: Bucket, mid: Bucket, after: Bucket, key: Key, a: Attrs, w: Weather)
    requires PayloadIdOf(key).Some? && TargetsEnd(setup, mid, after, key, a, w)
    requires forall file :: Kept(before, mid, Target(setup, key, a, file))
    requires Kept(before, mid, PayloadIdOf(key).value + "/input.json")
    ensures TargetsEnd(setup, before, after, key, a, w)
  {
    assert Kept(before, mid, Target(setup, key, a, InputFile));
    assert Kept(before, mid, Target(setup, key, a, OutputFile));
  }

  /** The other records spare the targets of this one. */
  predicate OthersSpare(setup: Setup, table: map<Key, Attrs>, keys: seq<Key>, key: Key)
    requires key in table && PayloadIdOf(key).Some?
  {
    forall k, file | k in keys && k != key ::
      k in table && Spares(setup, k, table[k], Target(setup, key, table[key], file))
  }

  lemma SparedBehind(setup: Setup, world: World, keys: seq<Key>, w: Weather, file: File)
    requires keys != [] && Distinct(keys) && keys[0] in world.table && PayloadIdOf(keys[0]).Some?
    requires OthersSpare(setup, world.table, keys, keys[0])
    ensures AllSpare(setup, MigrateKey(setup, world, keys[0], w).table, keys[1..],
                     Target(setup, keys[0], world.table[keys[0]], file))
  {
    DistinctTail(keys);
    SparedByRest(setup, world, keys, w, Target(setup, keys[0], world.table[keys[0]], file));
  }

  lemma OthersStillSpare(setup: Setup, world: World, keys: seq<Key>, w: Weather, key: Key)
    requires keys != [] && Distinct(keys) && key in keys[1..] && PayloadIdOf(key).Some?
    requires (forall k | k in keys :: k in world.table) && OthersSpare(setup, world.table, keys, key)
    ensures var next := MigrateKey(setup, world, keys[0], w);
            && (forall k | k in keys[1..] :: k in next.table)
            && next.table[key] == world.table[key] && OthersSpare(setup, next.table, keys[1..], key)
  {
    DistinctTail(keys);
    StepTable(setup, world, keys[0], w);
  }

  lemma {:induction false} RunEndsTargets(setup: Setup, world: World, keys: seq<Key>, weather: Key -> Weather,
                                          key: Key)
    requires Distinct(keys) && (forall k | k in keys :: k in world.table) && key in keys
    requires PayloadIdOf(key).Some? && ExecutionId(world.table[key]) != ""
    requires !(ExecutionsPrefix(setup) <= PayloadIdOf(key).value + "/input.json")
    requires OthersSpare(setup, world.table, keys, key)
    ensures TargetsEnd(setup, world.bucket, MigrateAll(setup, world, keys, weather).bucket,
                       key, world.table[key], weather(key))
    decreases |keys|
  {
    var w, a := weather(keys[0]), world.table[key];
    var next, final := MigrateKey(setup, world, keys[0], w), MigrateAll(setup, world, keys, weather);
    DistinctTail(keys);
    if keys[0] == key {
      RecordEndsInput(setup, world.bucket, key, a, w);
      RecordEndsOutput(setup, world.bucket, key, a, w);
      forall file ensures Kept(next.bucket, final.bucket, Target(setup, key, a, file)) {
        SparedBehind(setup, world, keys, w, file);
        SparedByRun(setup, next, keys[1..], weather, Target(setup, key, a, file));
      }
      TargetsStay(setup, world.bucket, next.bucket, final.bucket, key, a, w);
    } else {
      forall file ensures Kept(world.bucket, next.bucket, Target(setup, key, a, file)) {
        SparedByRecord(setup, world.bucket, keys[0], world.table[keys[0]], w, Target(setup, key, a, file));
      }
      RecordKeepsOthers(setup, world.bucket, RecordOf(keys[0], world.table[keys[0]]), w,
                        PayloadIdOf(key).value + "/input.json");
      OthersStillSpare(setup, world, keys, w, key);
      RunEndsTargets(setup, next, keys[1..], weather, key);
      TargetsWait(setup, world.bucket, next.bucket, final.bucket, key, a, weather(key));
    }
  }

  /** Two keys that give back the same payload id are the same. */
  lemma GoodKeysHaveDifferentIds(k: Key, key: Key)
    requires GoodKey(k) && GoodKey(key) && k != key
    ensures PayloadIdOf(k).Some? && PayloadIdOf(key).Some? && PayloadIdOf(k) != PayloadIdOf(key)
  {
    KeyRoundTripIff(k);
    KeyRoundTripIff(key);
  }

  lemma GoodKeysSpare(setup: Setup, k: Key, a: Attrs, key: Key, b: Attrs, file: File)
    requires GoodKey(k) && GoodKey(key) && k != key && '/' !in ExecutionId(a) && '/' !in ExecutionId(b)
    ensures PayloadIdOf(key).Some? && Spares(setup, k, a, Target(setup, key, b, file))
  {
    GoodKeysHaveDifferentIds(k, key);
    forall f ensures Target(setup, k, a, f) != Target(setup, key, b, file) {
      ExecutionKeysAreDistinct(setup.root, PayloadIdOf(k).value, ExecutionId(a), f,
                               PayloadIdOf(key).value, ExecutionId(b), file);
    }
  }

  /**
   After a whole run over keys the code writes and execution ids without slash, the input and the output of each record
   lie where they belong, exactly when they were copied; nothing any other record does reaches them.
   */
  lemma {:induction false} TargetsHoldTheirSources(setup: Setup, world: World, keys: seq<Key>,
                                                   weather: Key -> Weather, key: Key)
    requires Distinct(keys) && key in keys
    requires forall k | k in keys :: k in world.table && GoodKey(k) && '/' !in ExecutionId(world.table[k])
    requires ExecutionId(world.table[key]) != "" && PayloadIdOf(key).Some?
    requires !(ExecutionsPrefix(setup) <= PayloadIdOf(key).value + "/input.json")
    ensures TargetsEnd(setup, world.bucket, MigrateAll(setup, world, keys, weather).bucket,
                       key, world.table[key], weather(key))
  {
    forall k, file | k in keys && k != key
      ensures Spares(setup, k, world.table[k], Target(setup, key, world.table[key], file))
    {
      GoodKeysSpare(setup, k, world.table[k], key, world.table[key], file);
    }
    RunEndsTargets(setup, world, keys, weather, key);
  }

  // Which execution the objects belong to, told from the list of executions.

  predicate SlashFreeExecutions(a: Attrs) {
    Executions in a && a[Executions].TextList? ==> forall x | x in a[Executions].texts :: '/' !in x
  }

  lemma SlashFreeExecutionId(a: Attrs)
    requires SlashFreeExecutions(a)
    ensures '/' !in ExecutionId(a)
  {
    var xs := ExecutionsOf(a);
    if xs != [] {
      assert xs[|xs| - 1] in xs;
      NotInRest(xs[|xs| - 1], '/', Last(xs[|xs| - 1], ':') + 1);
    }
  }

  lemma LastOfSnoc(xs: seq<string>, x: string)
    ensures xs + [x] != [] && (xs + [x])[|xs + [x]| - 1] == x
  {
  }

  /** The id of an execution list is what stands behind the last colon of its last entry. */
  lemma ExecutionIdIs(a: Attrs, xs: seq<string>, head: string, execution: string)
    requires Executions in a && a[Executions] == TextList(xs + [head + ":" + execution]) && ':' !in execution
    ensures ExecutionId(a) == execution
  {
    LastOfSnoc(xs, head + ":" + execution);
    AfterLastIff(head, ':', execution);
  }

  lemma EarlierIdIsSlashFree(a: Attrs, xs: seq<string>, last: string, head: string, earlier: string)
    requires Executions in a && a[Executions] == TextList(xs + [last]) && SlashFreeExecutions(a)
    requires head + ":" + earlier in xs
    ensures '/' !in earlier
  {
    var x := head + ":" + earlier;
    assert x in xs + [last];
    assert forall i | 0 <= i < |earlier| :: earlier[i] == x[|head| + 1 + i];
  }

  lemma {:induction false} EarlierIsSpared(setup: Setup, table: map<Key, Attrs>, keys: seq<Key>, key: Key,
                                           earlier: string, file: File)
    requires key in keys && PayloadIdOf(key).Some? && '/' !in earlier
    requires forall k | k in keys :: k in table && GoodKey(k) && SlashFreeExecutions(table[k])
    requires ExecutionId(table[key]) != earlier
    ensures AllSpare(setup, table, keys, ExecutionKey(setup.root, PayloadIdOf(key).value, earlier, file))
  {
    var name := ExecutionKey(setup.root, PayloadIdOf(key).value, earlier, file);
    forall k | k in keys ensures Spares(setup, k, table[k], name) {
      GoodKeyIsNamed(k);
      SlashFreeExecutionId(table[k]);
      if k != key {
        GoodKeysHaveDifferentIds(k, key);
      }
      forall f ensures Target(setup, k, table[k], f) != name {
        ExecutionKeysAreDistinct(setup.root, PayloadIdOf(k).value, ExecutionId(table[k]), f,
                                 PayloadIdOf(key).value, earlier, file);
      }
    }
  }

  /** Where the objects of an execution lie. */
  function Folder(setup: Setup, id: string, execution: string): string {
    setup.root + "/executions/" + id + "/" + execution
  }

  lemma {:induction false} EarlierExecutionsAreKept(setup: Setup, world: World, keys: seq<Key>,
                                                    weather: Key -> Weather, key: Key, xs: seq<string>,
                                                    last: string, head: string, earlier: string)
    requires Distinct(keys) && key in keys && PayloadIdOf(key).Some?
    requires forall k | k in keys :: k in world.table && GoodKey(k) && SlashFreeExecutions(world.table[k])
    requires Executions in world.table[key] && world.table[key][Executions] == TextList(xs + [last])
    requires head + ":" + earlier in xs && ExecutionId(world.table[key]) != earlier
    ensures var final := MigrateAll(setup, world, keys, weather);
            var folder := Folder(setup, PayloadIdOf(key).value, earlier);
            && Kept(world.bucket, final.bucket, folder + "/" + "input.json")
            && Kept(world.bucket, final.bucket, folder + "/" + "output.json")
  {
    EarlierIdIsSlashFree(world.table[key], xs, last, head, earlier);
    forall file ensures Kept(world.bucket, MigrateAll(setup, world, keys, weather).bucket,
                             ExecutionKey(setup.root, PayloadIdOf(key).value, earlier, file)) {
      EarlierIsSpared(setup, world.table, keys, key, earlier, file);
      SparedByRun(setup, world, keys, weather, ExecutionKey(setup.root, PayloadIdOf(key).value, earlier, file));
    }
    ObjectNames(setup.root, PayloadIdOf(key).value, earlier);
    assert Kept(world.bucket, MigrateAll(setup, world, keys, weather).bucket,
                ExecutionKey(setup.root, PayloadIdOf(key).value, earlier, InputFile));
    assert Kept(world.bucket, MigrateAll(setup, world, keys, weather).bucket,
                ExecutionKey(setup.root, PayloadIdOf(key).value, earlier, OutputFile));
  }

  /**
   After a whole run the objects of a record lie under what stands behind the last colon of its last execution, whatever
   came before it, exactly when they were copied; the objects of its earlier executions are as before.
   */
  lemma {:induction false} LastExecutionHoldsTheObjects(setup: Setup, world: World, keys: seq<Key>,
                                                        weather: Key -> Weather, key: Key, id: string,
                                                        xs: seq<string>, head: string, execution: string)
    requires Distinct(keys) && key in keys && KeyToPayloadId(key) == Success(id)
    requires forall k | k in keys :: k in world.table && GoodKey(k) && SlashFreeExecutions(world.table[k])
    requires var a := world.table[key];
             Executions in a && a[Executions] == TextList(xs + [head + ":" + execution])
    requires ':' !in execution && execution != "" && !(setup.root + "/executions/" <= id + "/" + "input.json")
    ensures var a, w := world.table[key], weather(key);
            var before, after := world.bucket, MigrateAll(setup, world, keys, weather).bucket;
            var source, folder := id + "/" + "input.json", setup.root + "/executions/" + id + "/" + execution;
            && (if !setup.dryRun && w.copy.Fine? && source in before && ClaimedAt !in a
                then folder + "/" + "input.json" in after && after[folder + "/" + "input.json"] == before[source]
                else Kept(before, after, folder + "/" + "input.json"))
            && (if !setup.dryRun && !w.copy.Exception? && OriginalState(a) == "COMPLETED" && w.recent
                   && w.described.Output? && w.put.Fine? && ClaimedAt !in a
                then folder + "/" + "output.json" in after && after[folder + "/" + "output.json"] == w.described.body
                else Kept(before, after, folder + "/" + "output.json"))
            && forall h, earlier | h + ":" + earlier in xs && earlier != execution ::
                 && Kept(before, after, Folder(setup, id, earlier) + "/" + "input.json")
                 && Kept(before, after, Folder(setup, id, earlier) + "/" + "output.json")
  {
    var a := world.table[key];
    ExecutionIdIs(a, xs, head, execution);
    assert id + "/" + "input.json" == id + "/input.json";
    forall k | k in keys ensures '/' !in ExecutionId(world.table[k]) {
      SlashFreeExecutionId(world.table[k]);
    }
    TargetsHoldTheirSources(setup, world, keys, weather, key);
    ObjectNames(setup.root, id, execution);
    forall h, earlier | h + ":" + earlier in xs && earlier != execution
      ensures Kept(world.bucket, MigrateAll(setup, world, keys, weather).bucket,
                   Folder(setup, id, earlier) + "/" + "input.json")
      ensures Kept(world.bucket, MigrateAll(setup, world, keys, weather).bucket,
                   Folder(setup, id, earlier) + "/" + "output.json")
    {
      EarlierExecutionsAreKept(setup, world, keys, weather, key, xs, head + ":" + execution, h, earlier);
    }
  }
}
