/** What a whole migration run adds up to, and what a second run finds. */
module MigrationAccounting {
  import opened Wrappers
  import opened Naming
  import opened PayloadIds
  import opened MigrationPlan
  import opened MigrationRun

  /** How a record ends, told without running the migration. */
  datatype Category = Guarded | NothingToDo | Updated | UpdateFailed | UpdateFailedUnnamed | Unexpected

  /** A copy step raises something `migrate_record` does not handle. */
  predicate CopyRaises(setup: Setup, rec: MigrationRecord, w: Weather) {
    && rec.executionId != ""
    && (|| rec.payloadId.None?
        || (!setup.dryRun && w.copy.Exception?)
        || (!setup.dryRun && rec.completed && w.recent &&
            (w.described.DescribeException? || (w.described.Output? && w.put.Exception?))))
  }

  function CategoryOf(setup: Setup, rec: MigrationRecord, w: Weather): Category {
    if rec.alreadyMigrated then Guarded else CategoryAfter(CopyRaises(setup, rec, w), setup, rec, w)
  }

  function CategoryAfter(copyRaises: bool, setup: Setup, rec: MigrationRecord, w: Weather): Category {
    if copyRaises then Unexpected
    else if IsNoop(rec.plan) then NothingToDo
    else if setup.dryRun then if rec.payloadId.None? then Unexpected else Updated
    else match w.update
      case Fine => Updated
      case Exception => Unexpected
      case ClientFault => if rec.payloadId.None? then UpdateFailedUnnamed else UpdateFailed
  }

  /** The copies touch none of the counters that classify records. */
  predicate NoClass(c: Counts) {
    c[Processed] == 0 && c[DbUpdated] == 0 && c[DbErrors] == 0 && c[UnexpectedErrors] == 0
  }

  lemma InputCountsNoClass(setup: Setup, bucket: Bucket, rec: MigrationRecord, w: Weather)
    ensures NoClass(CopyInput(setup, bucket, rec, w).counts)
  {
  }

  lemma FetchCountsNoClass(bucket: Bucket, target: string, w: Weather)
    ensures NoClass(FetchOutput(bucket, target, w).counts)
    ensures FetchOutput(bucket, target, w).raised
        <==> w.described.DescribeException? || (w.described.Output? && w.put.Exception?)
  {
  }

  lemma OutputCountsNoClass(setup: Setup, bucket: Bucket, rec: MigrationRecord, w: Weather)
    ensures NoClass(CopyOutput(setup, bucket, rec, w).counts)
  {
    if rec.payloadId.Some? {
      FetchCountsNoClass(bucket, ExecutionKey(setup.root, rec.payloadId.value, rec.executionId, OutputFile), w);
    }
  }

  lemma InputRaises(setup: Setup, bucket: Bucket, rec: MigrationRecord, w: Weather)
    ensures CopyInput(setup, bucket, rec, w).raised <==>
            rec.executionId != "" && (rec.payloadId.None? || (!setup.dryRun && w.copy.Exception?))
  {
  }

  lemma OutputRaises(setup: Setup, bucket: Bucket, rec: MigrationRecord, w: Weather)
    requires rec.payloadId.Some? || rec.executionId == ""
    ensures CopyOutput(setup, bucket, rec, w).raised <==>
            rec.executionId != "" && !setup.dryRun && rec.completed && w.recent &&
            (w.described.DescribeException? || (w.described.Output? && w.put.Exception?))
  {
    if rec.payloadId.Some? {
      FetchCountsNoClass(bucket, ExecutionKey(setup.root, rec.payloadId.value, rec.executionId, OutputFile), w);
    }
  }

  lemma CopiesRaise(setup: Setup, bucket: Bucket, rec: MigrationRecord, w: Weather)
    ensures CopyPayloadsOf(setup, bucket, rec, w).raised <==> CopyRaises(setup, rec, w)
  {
    InputRaises(setup, bucket, rec, w);
    var p := CopyInput(setup, bucket, rec, w);
    if !p.raised {
      OutputRaises(setup, p.bucket, rec, w);
    }
  }

  lemma CopiesCountNoClass(setup: Setup, bucket: Bucket, rec: MigrationRecord, w: Weather)
    ensures NoClass(CopyPayloadsOf(setup, bucket, rec, w).counts)
  {
    InputCountsNoClass(setup, bucket, rec, w);
    OutputCountsNoClass(setup, CopyInput(setup, bucket, rec, w).bucket, rec, w);
  }

  /** The counters agree with the category. */
  predicate CountsAs(c: Counts, cat: Category) {
    && c[Processed] == 1
    && c[DbUpdated] == (if cat.Updated? then 1 else 0)
    && c[DbErrors] == (if cat.UpdateFailed? || cat.UpdateFailedUnnamed? then 1 else 0)
    && c[UnexpectedErrors] == (if cat.Unexpected? || cat.UpdateFailedUnnamed? then 1 else 0)
  }

  /** What follows the copies `p`, whatever they did. */
  lemma UpdateIsCounted(setup: Setup, rec: MigrationRecord, p: Part, w: Weather)
    requires NoClass(p.counts)
    ensures CountsAs(Counted(AfterCopies(setup, p, rec, w)), CategoryAfter(p.raised, setup, rec, w))
  {
    if !p.raised {
      assert Counted(AfterCopies(setup, p, rec, w))[Processed] == 1;
    }
  }

  lemma UpdateWrites(setup: Setup, rec: MigrationRecord, p: Part, w: Weather)
    ensures AfterCopies(setup, p, rec, w).wrote <==> CategoryAfter(p.raised, setup, rec, w).Updated? && !setup.dryRun
  {
  }

  /** A record is processed once and counted as its category says; only the unnamed failure counts twice. */
  lemma CategoryIsCounted(setup: Setup, bucket: Bucket, rec: MigrationRecord, w: Weather)
    ensures var m, cat := MigrateRecord(setup, bucket, rec, w), CategoryOf(setup, rec, w);
            CountsAs(Counted(m), cat) && (m.wrote <==> cat.Updated? && !setup.dryRun)
  {
    var p := CopyPayloadsOf(setup, bucket, rec, w);
    CopiesRaise(setup, bucket, rec, w);
    CopiesCountNoClass(setup, bucket, rec, w);
    UpdateIsCounted(setup, rec, p, w);
    UpdateWrites(setup, rec, p, w);
  }

  // What one record adds to the counters of the copies, reply by reply.

  function Once(b: bool): nat {
    if b then 1 else 0
  }

  /** What the copy of the input adds when it is tried. */
  predicate InputCounts(c: Counts, dryRun: bool, there: bool, copy: Reply) {
    && c[S3Copied] == Once(dryRun || (copy.Fine? && there))
    && c[Skipped] == Once(!dryRun && copy.Fine? && !there)
    && c[S3CopyErrors] == Once(!dryRun && copy.ClientFault?)
    && c[S3OutputUploaded] == 0 && c[SfnOutputErrors] == 0
  }

  /** What the copy of the output adds when it is tried. */
  predicate OutputCounts(c: Counts, dryRun: bool, w: Weather) {
    && c[S3OutputUploaded] == Once(dryRun || (w.described.Output? && w.put.Fine?))
    && c[Skipped] == Once(!dryRun && (w.described.Gone? || w.described.NoOutput?))
    && c[SfnOutputErrors] ==
       Once(!dryRun && (w.described.DescribeFault? || (w.described.Output? && w.put.ClientFault?)))
    && c[S3Copied] == 0 && c[S3CopyErrors] == 0
  }

  predicate NoCopyCounts(c: Counts) {
    c[S3Copied] == 0 && c[Skipped] == 0 && c[S3CopyErrors] == 0 && c[S3OutputUploaded] == 0 && c[SfnOutputErrors] == 0
  }

  lemma InputCounted(setup: Setup, bucket: Bucket, rec: MigrationRecord, w: Weather)
    requires rec.payloadId.Some?
    ensures var c := CopyInput(setup, bucket, rec, w).counts;
            if rec.executionId == "" then NoCopyCounts(c)
            else InputCounts(c, setup.dryRun, rec.payloadId.value + "/input.json" in bucket, w.copy)
  {
  }

  lemma OutputCounted(setup: Setup, bucket: Bucket, rec: MigrationRecord, w: Weather)
    requires rec.payloadId.Some?
    ensures var c := CopyOutput(setup, bucket, rec, w).counts;
            if !rec.completed || !w.recent || rec.executionId == "" then NoCopyCounts(c)
            else OutputCounts(c, setup.dryRun, w)
  {
  }

  lemma UpdateCountsNoCopy(setup: Setup, rec: MigrationRecord, w: Weather)
    ensures NoCopyCounts(UpdateDb(setup, rec, w).counts)
  {
  }

  /** The five counters of one record from its two copies; the output is tried only if the input did not raise. */
  predicate CopyCounters(c: Counts, input: Counts, output: Counts) {
    && c[S3Copied] == input[S3Copied] + output[S3Copied] && c[Skipped] == input[Skipped] + output[Skipped]
    && c[S3CopyErrors] == input[S3CopyErrors] + output[S3CopyErrors]
    && c[S3OutputUploaded] == input[S3OutputUploaded] + output[S3OutputUploaded]
    && c[SfnOutputErrors] == input[SfnOutputErrors] + output[SfnOutputErrors]
  }

  /** What a record that can be named adds, by its own state, what is in the bucket, and the replies. */
  lemma CopiesAreCounted(setup: Setup, bucket: Bucket, key: Key, a: Attrs, w: Weather)
    requires PayloadIdOf(key).Some?
    ensures var c := Counted(MigrateRecord(setup, bucket, RecordOf(key, a), w));
            if ClaimedAt in a || ExecutionId(a) == "" then NoCopyCounts(c)
            else exists input, output ::
              && CopyCounters(c, input, output)
              && InputCounts(input, setup.dryRun, PayloadIdOf(key).value + "/input.json" in bucket, w.copy)
              && (if (setup.dryRun || !w.copy.Exception?) && OriginalState(a) == "COMPLETED" && w.recent
                  then OutputCounts(output, setup.dryRun, w) else NoCopyCounts(output))
  {
    var rec := RecordOf(key, a);
    var p := CopyInput(setup, bucket, rec, w);
    InputCounted(setup, bucket, rec, w);
    InputRaises(setup, bucket, rec, w);
    OutputCounted(setup, p.bucket, rec, w);
    UpdateCountsNoCopy(setup, rec, w);
    var q := if p.raised then multiset{} else CopyOutput(setup, p.bucket, rec, w).counts;
    if ClaimedAt !in a {
      CountersOfParts(setup, bucket, rec, w, p.counts, q);
    }
  }

  lemma CountersOfParts(setup: Setup, bucket: Bucket, rec: MigrationRecord, w: Weather, input: Counts, output: Counts)
    requires !rec.alreadyMigrated && NoCopyCounts(UpdateDb(setup, rec, w).counts)
    requires var p := CopyInput(setup, bucket, rec, w);
             input == p.counts && output == if p.raised then multiset{} else CopyOutput(setup, p.bucket, rec, w).counts
    ensures CopyCounters(Counted(MigrateRecord(setup, bucket, rec, w)), input, output)
  {
    var p := CopyPayloadsOf(setup, bucket, rec, w);
    assert CopyCounters(p.counts, input, output);
    assert CopyCounters(AfterCopies(setup, p, rec, w).counts, input, output);
  }

  function FirstCategory(setup: Setup, table: map<Key, Attrs>, keys: seq<Key>, weather: Key -> Weather): Category
    requires keys != [] && keys[0] in table
  {
    CategoryOf(setup, RecordOf(keys[0], table[keys[0]]), weather(keys[0]))
  }

  /** The categories of the records under `keys`, as the table is when the run begins. */
  function Categories(setup: Setup, table: map<Key, Attrs>, keys: seq<Key>, weather: Key -> Weather): seq<Category>
    requires forall key | key in keys :: key in table
    ensures |Categories(setup, table, keys, weather)| == |keys|
    decreases |keys|
  {
    if keys == [] then [] else
      [FirstCategory(setup, table, keys, weather)] + Categories(setup, table, keys[1..], weather)
  }

  /** The attributes a record has at the end of the run. */
  function AtTheEnd(setup: Setup, key: Key, a: Attrs, w: Weather): Attrs {
    if CategoryOf(setup, RecordOf(key, a), w).Updated? && !setup.dryRun then Migrated(a) else a
  }

  lemma StepTable(setup: Setup, world: World, key: Key, w: Weather)
    requires key in world.table
    ensures MigrateKey(setup, world, key, w).table == world.table[key := AtTheEnd(setup, key, world.table[key], w)]
  {
    CategoryIsCounted(setup, world.bucket, RecordOf(key, world.table[key]), w);
    assert world.table[key := world.table[key]] == world.table;
  }

  lemma DistinctTail(keys: seq<Key>)
    requires keys != [] && Distinct(keys)
    ensures Distinct(keys[1..]) && keys[0] !in keys[1..]
    ensures forall key | key in keys[1..] :: key in keys
    ensures forall key | key in keys :: key == keys[0] || key in keys[1..]
  {
  }

  /** Every record is migrated once, with what it held when the run began; the rest of the table is left alone. */
  lemma {:induction false} FinalTable(setup: Setup, world: World, keys: seq<Key>, weather: Key -> Weather, key: Key)
    requires Distinct(keys) && forall k | k in keys :: k in world.table
    requires key in world.table
    ensures var final := MigrateAll(setup, world, keys, weather);
            && key in final.table
            && final.table[key] == if key in keys then AtTheEnd(setup, key, world.table[key], weather(key))
                                   else world.table[key]
    decreases |keys|
  {
    if keys != [] {
      DistinctTail(keys);
      StepTable(setup, world, keys[0], weather(keys[0]));
      FinalTable(setup, MigrateKey(setup, world, keys[0], weather(keys[0])), keys[1..], weather, key);
    }
  }

  lemma {:induction false} CategoriesElsewhere(setup: Setup, table: map<Key, Attrs>, key: Key, a: Attrs,
                                               keys: seq<Key>, weather: Key -> Weather)
    requires key !in keys && forall k | k in keys :: k in table
    ensures Categories(setup, table[key := a], keys, weather) == Categories(setup, table, keys, weather)
    decreases |keys|
  {
    if keys != [] {
      CategoriesElsewhere(setup, table, key, a, keys[1..], weather);
    }
  }

  /** The counters in terms of how many records fall in each category. */
  predicate CountsAdd(before: Counts, after: Counts, cs: multiset<Category>) {
    && after[Processed] == before[Processed] + |cs|
    && after[DbUpdated] == before[DbUpdated] + cs[Updated]
    && after[DbErrors] == before[DbErrors] + cs[UpdateFailed] + cs[UpdateFailedUnnamed]
    && after[UnexpectedErrors] == before[UnexpectedErrors] + cs[Unexpected] + cs[UpdateFailedUnnamed]
  }

  lemma OneMoreRecord(before: Counts, next: Counts, after: Counts, cat: Category, rest: seq<Category>)
    requires CountsAdd(before, next, multiset{cat}) && CountsAdd(next, after, multiset(rest))
    ensures CountsAdd(before, after, multiset([cat] + rest))
  {
    assert multiset([cat] + rest) == multiset{cat} + multiset(rest);
  }

  lemma CountsAddOne(before: Counts, c: Counts, cat: Category)
    requires CountsAs(c, cat)
    ensures CountsAdd(before, before + c, multiset{cat})
  {
  }

  lemma RecordCounts(setup: Setup, world: World, key: Key, rec: MigrationRecord, w: Weather)
    requires key in world.table
    ensures CountsAdd(world.counts, ProcessRecord(setup, world, key, rec, w).counts,
                      multiset{CategoryOf(setup, rec, w)})
  {
    CategoryIsCounted(setup, world.bucket, rec, w);
    CountsAddOne(world.counts, Counted(MigrateRecord(setup, world.bucket, rec, w)), CategoryOf(setup, rec, w));
  }

  /** Migrating the first record leaves the others as they were. */
  lemma {:induction false} FirstIsApart(setup: Setup, world: World, keys: seq<Key>, weather: Key -> Weather)
    requires keys != [] && Distinct(keys) && forall k | k in keys :: k in world.table
    ensures var next := MigrateKey(setup, world, keys[0], weather(keys[0]));
            && Distinct(keys[1..]) && (forall k | k in keys[1..] :: k in next.table)
            && Categories(setup, next.table, keys[1..], weather) == Categories(setup, world.table, keys[1..], weather)
  {
    DistinctTail(keys);
    var a := AtTheEnd(setup, keys[0], world.table[keys[0]], weather(keys[0]));
    StepTable(setup, world, keys[0], weather(keys[0]));
    CategoriesElsewhere(setup, world.table, keys[0], a, keys[1..], weather);
  }

  lemma {:induction false} RunCounts(setup: Setup, world: World, keys: seq<Key>, weather: Key -> Weather)
    requires Distinct(keys) && forall k | k in keys :: k in world.table
    ensures CountsAdd(world.counts, MigrateAll(setup, world, keys, weather).counts,
                      multiset(Categories(setup, world.table, keys, weather)))
    decreases |keys|
  {
    if keys != [] {
      var next := MigrateKey(setup, world, keys[0], weather(keys[0]));
      RecordCounts(setup, world, keys[0], RecordOf(keys[0], world.table[keys[0]]), weather(keys[0]));
      FirstIsApart(setup, world, keys, weather);
      RunCounts(setup, next, keys[1..], weather);
      OneMoreRecord(world.counts, next.counts, MigrateAll(setup, world, keys, weather).counts,
                    FirstCategory(setup, world.table, keys, weather),
                    Categories(setup, world.table, keys[1..], weather));
    }
  }

  lemma {:induction false} CategoriesAddUp(cs: seq<Category>)
    ensures var m := multiset(cs);
            |cs| == m[Guarded] + m[NothingToDo] + m[Updated] + m[UpdateFailed] + m[UpdateFailedUnnamed] + m[Unexpected]
  {
    if cs != [] {
      CategoriesAddUp(cs[1..]);
      match cs[0] {
        case Guarded | NothingToDo | Updated => case UpdateFailed | UpdateFailedUnnamed | Unexpected =>
      }
      assert cs == [cs[0]] + cs[1..];
      assert multiset(cs) == multiset{cs[0]} + multiset(cs[1..]);
    }
  }

  /**
   * A run processes every record once, and its counters account for every record, exactly when no update failed on a
   * record whose key gives no payload id: the log line of that failure raises, so it counts twice.
   */
  lemma {:induction false} RunAccounting(setup: Setup, world: World, keys: seq<Key>, weather: Key -> Weather)
    requires Distinct(keys) && forall k | k in keys :: k in world.table
    requires world.counts == multiset{}
    ensures var c := MigrateAll(setup, world, keys, weather).counts;
            var cs := multiset(Categories(setup, world.table, keys, weather));
            && CountsAdd(multiset{}, c, cs)
            && c[Processed] == |keys|
            && (c[Processed] == cs[Guarded] + cs[NothingToDo] + c[DbUpdated] + c[DbErrors] + c[UnexpectedErrors]
                <==> UpdateFailedUnnamed !in cs)
  {
    RunCounts(setup, world, keys, weather);
    CategoriesAddUp(Categories(setup, world.table, keys, weather));
  }

  /** A key some payload id is stored under gives a payload id back. */
  lemma GoodKeyIsNamed(key: Key)
    requires GoodKey(key)
    ensures PayloadIdOf(key).Some?
  {
  }

  lemma NamedCategory(setup: Setup, rec: MigrationRecord, w: Weather)
    requires rec.payloadId.Some?
    ensures CategoryOf(setup, rec, w) != UpdateFailedUnnamed
  {
  }

  lemma NotAmong<T>(x: T, y: T, rest: seq<T>)
    requires x != y && x !in rest
    ensures x !in [y] + rest
  {
  }

  lemma {:induction false} NamedCategories(setup: Setup, table: map<Key, Attrs>, keys: seq<Key>,
                                           weather: Key -> Weather)
    requires forall key | key in keys :: key in table && GoodKey(key)
    ensures UpdateFailedUnnamed !in Categories(setup, table, keys, weather)
    decreases |keys|
  {
    if keys != [] {
      var rest := Categories(setup, table, keys[1..], weather);
      GoodKeyIsNamed(keys[0]);
      NamedCategory(setup, RecordOf(keys[0], table[keys[0]]), weather(keys[0]));
      NamedCategories(setup, table, keys[1..], weather);
      NotAmong(UpdateFailedUnnamed, FirstCategory(setup, table, keys, weather), rest);
    }
  }

  /** On a table written by the code itself, whatever AWS answers, the counters account for every record. */
  lemma {:induction false} CountersAddUp(setup: Setup, world: World, keys: seq<Key>, weather: Key -> Weather)
    requires Distinct(keys) && forall k | k in keys :: k in world.table && GoodKey(k)
    requires world.counts == multiset{}
    ensures var c := MigrateAll(setup, world, keys, weather).counts;
            var cs := multiset(Categories(setup, world.table, keys, weather));
            c[Processed] == cs[Guarded] + cs[NothingToDo] + c[DbUpdated] + c[DbErrors] + c[UnexpectedErrors]
  {
    RunAccounting(setup, world, keys, weather);
    NamedCategories(setup, world.table, keys, weather);
  }

  /** A record under a key without underscore, and one it could be: created, never claimed, without an execution. */
  lemma {:induction false} RefusedUpdateCountsTwice(root: string, key: Key, stamp: string, w: Weather)
    requires '_' !in key.collectionsWorkflow && w.update.ClientFault?
    ensures var world := World(map[key := map[Created := Text(stamp)]], map[], multiset{});
            var c := MigrateAll(Setup(root, false), world, [key], _ => w).counts;
            c == multiset{Processed, DbErrors, UnexpectedErrors}
  {
    var setup, a := Setup(root, false), map[Created := Text(stamp)];
    var world := World(map[key := a], map[], multiset{});
    assert ClaimSets(a) == [(ClaimedAt, Text(stamp))];
    QuietCopies(setup, map[], RecordOf(key, a), w);
    assert MigrateRecord(setup, map[], RecordOf(key, a), w) == Migration(map[], false, multiset{DbErrors}, true);
    assert [key][1..] == [];
  }

  lemma DryCopies(setup: Setup, bucket: Bucket, rec: MigrationRecord, w: Weather)
    requires setup.dryRun
    ensures CopyInput(setup, bucket, rec, w).bucket == bucket && CopyOutput(setup, bucket, rec, w).bucket == bucket
  {
  }

  lemma DryRecord(setup: Setup, bucket: Bucket, rec: MigrationRecord, w: Weather)
    requires setup.dryRun
    ensures MigrateRecord(setup, bucket, rec, w).bucket == bucket && !MigrateRecord(setup, bucket, rec, w).wrote
  {
    DryCopies(setup, bucket, rec, w);
    var p := CopyPayloadsOf(setup, bucket, rec, w);
    assert p.bucket == bucket;
    DryUpdate(setup, p, rec, w);
  }

  lemma DryUpdate(setup: Setup, p: Part, rec: MigrationRecord, w: Weather)
    requires setup.dryRun
    ensures AfterCopies(setup, p, rec, w).bucket == p.bucket && !AfterCopies(setup, p, rec, w).wrote
  {
  }

  /** A dry run leaves the table and the bucket as they were. */
  lemma {:induction false} DryRunChangesNothing(setup: Setup, world: World, keys: seq<Key>, weather: Key -> Weather)
    requires setup.dryRun && forall k | k in keys :: k in world.table
    ensures var final := MigrateAll(setup, world, keys, weather);
            final.table == world.table && final.bucket == world.bucket
    decreases |keys|
  {
    if keys != [] {
      DryRecord(setup, world.bucket, RecordOf(keys[0], world.table[keys[0]]), weather(keys[0]));
      DryRunChangesNothing(setup, MigrateKey(setup, world, keys[0], weather(keys[0])), keys[1..], weather);
    }
  }

  /** Nothing is left to write for this record. */
  predicate Done(rec: MigrationRecord) {
    rec.alreadyMigrated || (IsNoop(rec.plan) && !rec.completed)
  }

  /** The migration does not even look at the copy of the input. */
  predicate Quiet(rec: MigrationRecord) {
    rec.alreadyMigrated || rec.executionId == ""
  }

  lemma QuietCopies(setup: Setup, bucket: Bucket, rec: MigrationRecord, w: Weather)
    requires rec.executionId == ""
    ensures CopyPayloadsOf(setup, bucket, rec, w) == Part(bucket, multiset{}, false)
  {
  }

  lemma LoudCopies(setup: Setup, bucket: Bucket, rec: MigrationRecord, w: Weather)
    requires rec.executionId != ""
    ensures var p := CopyInput(setup, bucket, rec, w); p.raised || |p.counts| == 1
  {
  }

  lemma DoneUpdate(setup: Setup, p: Part, rec: MigrationRecord, w: Weather)
    requires IsNoop(rec.plan)
    ensures AfterCopies(setup, p, rec, w) == Migration(p.bucket, false, p.counts, p.raised)
  {
  }

  lemma DoneRecord(setup: Setup, bucket: Bucket, rec: MigrationRecord, w: Weather)
    requires Done(rec)
    ensures var m := MigrateRecord(setup, bucket, rec, w);
            && !m.wrote
            && (Quiet(rec) ==> m.bucket == bucket && Counted(m) == multiset{Processed})
            && (!Quiet(rec) ==> |Counted(m)| > 1)
  {
    if !rec.alreadyMigrated {
      DoneUpdate(setup, CopyPayloadsOf(setup, bucket, rec, w), rec, w);
      if rec.executionId == "" {
        QuietCopies(setup, bucket, rec, w);
      } else {
        LoudCopies(setup, bucket, rec, w);
      }
    }
  }

  predicate AllDone(table: map<Key, Attrs>, keys: seq<Key>) {
    forall key | key in keys :: key in table && Done(RecordOf(key, table[key]))
  }

  predicate AllQuiet(table: map<Key, Attrs>, keys: seq<Key>) {
    forall key | key in keys :: key in table ==> Quiet(RecordOf(key, table[key]))
  }

  /** The only thing counted on the way from `before` to `after` is `n` processed records. */
  predicate OnlyProcessed(before: Counts, after: Counts, n: nat) {
    after == before[Processed := before[Processed] + n]
  }

  /** From `before` to `after` at least `n` records were counted, and nothing else exactly if `quiet`. */
  predicate CountsQuietly(before: Counts, after: Counts, n: nat, quiet: bool) {
    && |after| >= |before| + n
    && (quiet ==> OnlyProcessed(before, after, n))
    && (!quiet ==> |after| > |before| + n)
  }

  lemma CountsCompose(before: Counts, next: Counts, after: Counts, n: nat, first: bool, rest: bool)
    requires CountsQuietly(before, next, 1, first) && CountsQuietly(next, after, n, rest)
    ensures CountsQuietly(before, after, n + 1, first && rest)
  {
  }

  lemma DoneStep(setup: Setup, world: World, key: Key, rec: MigrationRecord, w: Weather)
    requires key in world.table && Done(rec)
    ensures var next := ProcessRecord(setup, world, key, rec, w);
            && next.table == world.table && (Quiet(rec) ==> next.bucket == world.bucket)
            && CountsQuietly(world.counts, next.counts, 1, Quiet(rec))
  {
    DoneRecord(setup, world.bucket, rec, w);
  }

  lemma FirstIsDone(setup: Setup, world: World, keys: seq<Key>, w: Weather)
    requires keys != [] && AllDone(world.table, keys)
    ensures var next := MigrateKey(setup, world, keys[0], w);
            && next.table == world.table && AllDone(next.table, keys[1..])
            && (AllQuiet(world.table, [keys[0]]) ==> next.bucket == world.bucket)
            && CountsQuietly(world.counts, next.counts, 1, AllQuiet(world.table, [keys[0]]))
  {
    assert [keys[0]][0] == keys[0];
    DoneStep(setup, world, keys[0], RecordOf(keys[0], world.table[keys[0]]), w);
  }

  lemma AllQuietParts(table: map<Key, Attrs>, keys: seq<Key>)
    requires keys != []
    ensures AllQuiet(table, keys) <==> AllQuiet(table, [keys[0]]) && AllQuiet(table, keys[1..])
  {
    assert keys == [keys[0]] + keys[1..];
  }

  lemma {:induction false} DoneRun(setup: Setup, world: World, keys: seq<Key>, weather: Key -> Weather)
    requires AllDone(world.table, keys)
    ensures var final := MigrateAll(setup, world, keys, weather);
            && final.table == world.table
            && (AllQuiet(world.table, keys) ==> final.bucket == world.bucket)
            && CountsQuietly(world.counts, final.counts, |keys|, AllQuiet(world.table, keys))
    decreases |keys|
  {
    if keys == [] {
      assert world.counts[Processed := world.counts[Processed]] == world.counts;
    } else {
      var next := MigrateKey(setup, world, keys[0], weather(keys[0]));
      FirstIsDone(setup, world, keys, weather(keys[0]));
      AllQuietParts(world.table, keys);
      DoneRun(setup, next, keys[1..], weather);
      CountsCompose(world.counts, next.counts, MigrateAll(setup, next, keys[1..], weather).counts, |keys| - 1,
                    AllQuiet(world.table, [keys[0]]), AllQuiet(world.table, keys[1..]));
    }
  }

  lemma {:induction false} CategoryListed(setup: Setup, table: map<Key, Attrs>, keys: seq<Key>,
                                          weather: Key -> Weather, key: Key)
    requires key in keys && forall k | k in keys :: k in table
    ensures CategoryOf(setup, RecordOf(key, table[key]), weather(key)) in Categories(setup, table, keys, weather)
    decreases |keys|
  {
    if key != keys[0] {
      assert keys == [keys[0]] + keys[1..];
      CategoryListed(setup, table, keys[1..], weather, key);
    }
  }

  /** The run added neither a database error nor an unexpected one. */
  predicate NoErrors(before: Counts, after: Counts) {
    after[DbErrors] == before[DbErrors] && after[UnexpectedErrors] == before[UnexpectedErrors]
  }

  lemma NoErrorCategory(before: Counts, after: Counts, cs: multiset<Category>, cat: Category)
    requires CountsAdd(before, after, cs) && NoErrors(before, after) && cat in cs
    ensures cat in {Guarded, NothingToDo, Updated}
  {
    assert cs[UpdateFailed] == 0 && cs[UpdateFailedUnnamed] == 0 && cs[Unexpected] == 0;
  }

  lemma {:induction false} ErrorFreeRecord(setup: Setup, world: World, keys: seq<Key>, weather: Key -> Weather,
                                           key: Key)
    requires Distinct(keys) && (forall k | k in keys :: k in world.table) && key in keys
    requires NoErrors(world.counts, MigrateAll(setup, world, keys, weather).counts)
    ensures CategoryOf(setup, RecordOf(key, world.table[key]), weather(key)) in {Guarded, NothingToDo, Updated}
  {
    RunCounts(setup, world, keys, weather);
    CategoryListed(setup, world.table, keys, weather, key);
    NoErrorCategory(world.counts, MigrateAll(setup, world, keys, weather).counts,
                    multiset(Categories(setup, world.table, keys, weather)),
                    CategoryOf(setup, RecordOf(key, world.table[key]), weather(key)));
  }

  /** A record that a second run has no reason to touch. */
  predicate Settled(a: Attrs) {
    Created in a || ClaimedAt in a || ExecutionId(a) == ""
  }

  lemma SameExecution(a: Attrs, b: Attrs)
    requires Executions in a <==> Executions in b
    requires Executions in a ==> a[Executions] == b[Executions]
    ensures ExecutionsOf(a) == ExecutionsOf(b)
  {
  }

  lemma MigratedIsDone(key: Key, a: Attrs)
    requires ClaimedAt !in a
    ensures Done(RecordOf(key, Migrated(a))) && (Quiet(RecordOf(key, Migrated(a))) <==> Settled(a))
  {
    MigrationNormalises(a);
    MigratedAttributes(a);
    SameExecution(a, Migrated(a));
  }

  lemma UntouchedIsDone(key: Key, a: Attrs)
    requires ClaimedAt in a || IsNoop(BuildPlan(a))
    ensures Done(RecordOf(key, a)) && (Quiet(RecordOf(key, a)) <==> Settled(a))
  {
    NoopIffNormal(a);
  }

  lemma FineAndWantedIsUpdated(setup: Setup, rec: MigrationRecord, w: Weather)
    requires CategoryOf(setup, rec, w) in {Guarded, NothingToDo, Updated}
    ensures CategoryOf(setup, rec, w).Updated? <==> !rec.alreadyMigrated && !IsNoop(rec.plan)
  {
  }

  lemma EndIsDone(setup: Setup, key: Key, a: Attrs, w: Weather)
    requires !setup.dryRun && CategoryOf(setup, RecordOf(key, a), w) in {Guarded, NothingToDo, Updated}
    ensures var b := AtTheEnd(setup, key, a, w);
            Done(RecordOf(key, b)) && (Quiet(RecordOf(key, b)) <==> Settled(a))
  {
    FineAndWantedIsUpdated(setup, RecordOf(key, a), w);
    if ClaimedAt in a || IsNoop(BuildPlan(a)) {
      UntouchedIsDone(key, a);
    } else {
      MigratedIsDone(key, a);
    }
  }

  /**
   * After an error-free run a second one never changes the table; it changes nothing at all, and counts nothing but
   * the records it reads, exactly when every record had a creation time, a claim time or no execution.
   */
  lemma {:induction false} SecondRun(setup: Setup, world: World, keys: seq<Key>,
                                     first: Key -> Weather, second: Key -> Weather)
    requires !setup.dryRun && Distinct(keys) && forall k | k in keys :: k in world.table
    requires NoErrors(world.counts, MigrateAll(setup, world, keys, first).counts)
    ensures var once := MigrateAll(setup, world, keys, first);
            && (forall k | k in keys :: k in once.table)
            && var twice := MigrateAll(setup, once, keys, second);
            && twice.table == once.table
            && (twice.bucket == once.bucket && OnlyProcessed(once.counts, twice.counts, |keys|)
                <==> forall k | k in keys :: Settled(world.table[k]))
  {
    var once := MigrateAll(setup, world, keys, first);
    forall k | k in keys
      ensures k in once.table && Done(RecordOf(k, once.table[k]))
      ensures Quiet(RecordOf(k, once.table[k])) <==> Settled(world.table[k])
    {
      FinalTable(setup, world, keys, first, k);
      ErrorFreeRecord(setup, world, keys, first, k);
      EndIsDone(setup, k, world.table[k], first(k));
    }
    DoneRun(setup, once, keys, second);
  }
}
