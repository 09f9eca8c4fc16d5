/** `Migrator`: copying payloads and updating records over a paged scan, with every AWS call free to fail. */
module MigrationRun {
  import opened Wrappers
  import opened Naming
  import opened PayloadIds
  import opened MigrationPlan
  import opened BatchHandling

  /** A ClientError the code handles, or any other exception. */
  datatype Reply = Fine | ClientFault | Exception

  datatype Described = Output(body: string) | NoOutput | Gone | DescribeFault | DescribeException

  /** How the calls for one record turn out, and whether it was updated after the cutoff. */
  datatype Weather = Weather(copy: Reply, described: Described, put: Reply, update: Reply, recent: bool)

  /** The names `run` counts under; the `counts` dictionary is a multiset of them. */
  datatype Tally = Processed | DbUpdated | S3Copied | S3OutputUploaded | Skipped
                 | DbErrors | S3CopyErrors | SfnOutputErrors | UnexpectedErrors

  type Counts = multiset<Tally>

  type Bucket = map<string, string>

  /** The fixed settings of a run. */
  datatype Setup = Setup(root: string, dryRun: bool)

  /** The view `MigrationRecord` gives of an item; a key without "_" has no payload id and asking for it raises. */
  datatype MigrationRecord = MigrationRecord(
    payloadId: Option<string>, executionId: string, completed: bool, alreadyMigrated: bool, plan: Plan)

  function PayloadIdOf(key: Key): Option<string> {
    match KeyToPayloadId(key)
    case Failure(_) => None
    case Success(id) => Some(id)
  }

  function RecordOf(key: Key, a: Attrs): MigrationRecord {
    MigrationRecord(PayloadIdOf(key), ExecutionId(a), OriginalState(a) == "COMPLETED", ClaimedAt in a, BuildPlan(a))
  }

  /** What one part of the work did: the bucket, what it counted, and whether it raised. */
  datatype Part = Part(bucket: Bucket, counts: Counts, raised: bool)

  /** `copy_input_payload`: a missing source or another ClientError is counted and swallowed. */
  function CopyInput(setup: Setup, bucket: Bucket, rec: MigrationRecord, w: Weather): Part {
    if rec.executionId == "" then Part(bucket, multiset{}, false)
    else if rec.payloadId.None? then Part(bucket, multiset{}, true)
    else if setup.dryRun then Part(bucket, multiset{S3Copied}, false)
    else
      var source := rec.payloadId.value + "/input.json";
      var target := ExecutionKey(setup.root, rec.payloadId.value, rec.executionId, InputFile);
      match w.copy
      case Exception => Part(bucket, multiset{}, true)
      case ClientFault => Part(bucket, multiset{S3CopyErrors}, false)
      case Fine =>
        if source in bucket then Part(bucket[target := bucket[source]], multiset{S3Copied}, false)
        else Part(bucket, multiset{Skipped}, false)
  }

  /** Fetching the output of the last execution and storing it under `target`. */
  function FetchOutput(bucket: Bucket, target: string, w: Weather): Part {
    match w.described
    case DescribeException => Part(bucket, multiset{}, true)
    case DescribeFault => Part(bucket, multiset{SfnOutputErrors}, false)
    case Gone => Part(bucket, multiset{Skipped}, false)
    case NoOutput => Part(bucket, multiset{Skipped}, false)
    case Output(body) =>
      match w.put
      case Exception => Part(bucket, multiset{}, true)
      case ClientFault => Part(bucket, multiset{SfnOutputErrors}, false)
      case Fine => Part(bucket[target := body], multiset{S3OutputUploaded}, false)
  }

  /** `copy_output_payload`: only for recent COMPLETED records with an execution. */
  function CopyOutput(setup: Setup, bucket: Bucket, rec: MigrationRecord, w: Weather): Part {
    if !rec.completed || !w.recent || rec.executionId == "" then Part(bucket, multiset{}, false)
    else if rec.payloadId.None? then Part(bucket, multiset{}, true)
    else if setup.dryRun then Part(bucket, multiset{S3OutputUploaded}, false)
    else FetchOutput(bucket, ExecutionKey(setup.root, rec.payloadId.value, rec.executionId, OutputFile), w)
  }

  /** Both copies, the input first. */
  function CopyPayloadsOf(setup: Setup, bucket: Bucket, rec: MigrationRecord, w: Weather): Part {
    var p := CopyInput(setup, bucket, rec, w);
    if p.raised then p
    else
      var q := CopyOutput(setup, p.bucket, rec, w);
      Part(q.bucket, p.counts + q.counts, q.raised)
  }

  /** What `update_db_record` did: whether it wrote, what it counted, and whether it raised. */
  datatype Update = Update(wrote: bool, counts: Counts, raised: bool)

  /** The log line after a ClientError asks for the payload id, and raises when the key gives none. */
  function UpdateDb(setup: Setup, rec: MigrationRecord, w: Weather): Update {
    if IsNoop(rec.plan) then Update(false, multiset{}, false)
    else if setup.dryRun then
      if rec.payloadId.None? then Update(false, multiset{}, true) else Update(false, multiset{DbUpdated}, false)
    else match w.update
      case Exception => Update(false, multiset{}, true)
      case ClientFault => Update(false, multiset{DbErrors}, rec.payloadId.None?)
      case Fine => Update(true, multiset{DbUpdated}, false)
  }

  /** `migrate_record`: the three parts in order, up to the first exception. */
  datatype Migration = Migration(bucket: Bucket, wrote: bool, counts: Counts, raised: bool)

  function AfterCopies(setup: Setup, p: Part, rec: MigrationRecord, w: Weather): Migration {
    if p.raised then Migration(p.bucket, false, p.counts, true)
    else
      var u := UpdateDb(setup, rec, w);
      Migration(p.bucket, u.wrote, p.counts + u.counts, u.raised)
  }

  function MigrateRecord(setup: Setup, bucket: Bucket, rec: MigrationRecord, w: Weather): Migration {
    if rec.alreadyMigrated then Migration(bucket, false, multiset{}, false)
    else AfterCopies(setup, CopyPayloadsOf(setup, bucket, rec, w), rec, w)
  }

  /** What `run` counts for one record. */
  function Counted(m: Migration): Counts {
    multiset{Processed} + m.counts + if m.raised then multiset{UnexpectedErrors} else multiset{}
  }

  lemma CountedInOrder(c: Counts, m: Migration)
    ensures c + Counted(m) == if m.raised then c + multiset{Processed} + m.counts + multiset{UnexpectedErrors}
                              else c + multiset{Processed} + m.counts
  {
  }

  datatype World = World(table: map<Key, Attrs>, bucket: Bucket, counts: Counts)

  /** One record of the loop of `run`, as seen through `rec`. */
  function ProcessRecord(setup: Setup, world: World, key: Key, rec: MigrationRecord, w: Weather): World
    requires key in world.table
  {
    var m := MigrateRecord(setup, world.bucket, rec, w);
    World(if m.wrote then world.table[key := Apply(world.table[key], rec.plan)] else world.table, m.bucket,
          world.counts + Counted(m))
  }

  function MigrateKey(setup: Setup, world: World, key: Key, w: Weather): World
    requires key in world.table
  {
    ProcessRecord(setup, world, key, RecordOf(key, world.table[key]), w)
  }

  function MigrateAll(setup: Setup, world: World, keys: seq<Key>, weather: Key -> Weather): World
    requires forall key | key in keys :: key in world.table
    decreases |keys|
  {
    if keys == [] then world
    else MigrateAll(setup, MigrateKey(setup, world, keys[0], weather(keys[0])), keys[1..], weather)
  }

  lemma {:induction false} KeysAreKept(setup: Setup, world: World, keys: seq<Key>, weather: Key -> Weather)
    requires forall key | key in keys :: key in world.table
    ensures MigrateAll(setup, world, keys, weather).table.Keys == world.table.Keys
    decreases |keys|
  {
    if keys != [] {
      KeysAreKept(setup, MigrateKey(setup, world, keys[0], weather(keys[0])), keys[1..], weather);
    }
  }

  lemma FirstOfConcat(s: seq<Key>, t: seq<Key>)
    requires s != []
    ensures (s + t)[0] == s[0] && (s + t)[1..] == s[1..] + t
  {
  }

  lemma {:induction false} MigrateAllConcat(setup: Setup, world: World, s: seq<Key>, t: seq<Key>,
                                            weather: Key -> Weather)
    requires (forall key | key in s :: key in world.table) && forall key | key in t :: key in world.table
    ensures MigrateAll(setup, world, s, weather).table.Keys == world.table.Keys
    ensures MigrateAll(setup, world, s + t, weather)
         == MigrateAll(setup, MigrateAll(setup, world, s, weather), t, weather)
    decreases |s|
  {
    KeysAreKept(setup, world, s, weather);
    if s == [] {
      assert s + t == t;
    } else {
      FirstOfConcat(s, t);
      MigrateAllConcat(setup, MigrateKey(setup, world, s[0], weather(s[0])), s[1..], t, weather);
    }
  }

  predicate Distinct(keys: seq<Key>) {
    forall i, j | 0 <= i < j < |keys| :: keys[i] != keys[j]
  }

  lemma DistinctParts(s: seq<Key>, t: seq<Key>, u: seq<Key>)
    requires Distinct(s + t + u)
    ensures Distinct(t)
  {
    assert forall i | 0 <= i < |t| :: (s + t + u)[|s| + i] == t[i];
  }

  lemma {:induction false} MigrateAllSnoc(setup: Setup, world: World, keys: seq<Key>, key: Key, weather: Key -> Weather)
    requires forall k | k in keys + [key] :: k in world.table
    ensures (forall k | k in keys :: k in world.table) && key in MigrateAll(setup, world, keys, weather).table
    ensures MigrateAll(setup, world, keys + [key], weather)
         == MigrateKey(setup, MigrateAll(setup, world, keys, weather), key, weather(key))
  {
    MigrateAllConcat(setup, world, keys, [key], weather);
    assert key in keys + [key];
    assert [key][1..] == [];
  }

  /** What a run changes in the table, it changes under the keys it was given. */
  lemma {:induction false} OthersAreKept(setup: Setup, world: World, keys: seq<Key>, weather: Key -> Weather, key: Key)
    requires forall k | k in keys :: k in world.table
    requires key in world.table && key !in keys
    ensures var final := MigrateAll(setup, world, keys, weather);
            key in final.table && final.table[key] == world.table[key]
    decreases |keys|
  {
    if keys != [] {
      OthersAreKept(setup, MigrateKey(setup, world, keys[0], weather(keys[0])), keys[1..], weather, key);
    }
  }

  /** The next item of a page is still what it was when the page was read. */
  lemma {:induction false} NextItem(setup: Setup, start: World, page: seq<Key>, j: nat, weather: Key -> Weather)
    requires j < |page| && Distinct(page) && forall key | key in page :: key in start.table
    ensures var before := MigrateAll(setup, start, page[..j], weather);
            && page[j] in before.table && before.table[page[j]] == start.table[page[j]]
            && MigrateAll(setup, start, page[..j + 1], weather)
               == MigrateKey(setup, before, page[j], weather(page[j]))
  {
    assert page[..j + 1] == page[..j] + [page[j]];
    MigrateAllSnoc(setup, start, page[..j], page[j], weather);
    OthersAreKept(setup, start, page[..j], weather, page[j]);
  }

  /** The next page of a scan whose keys are distinct and all in the table. */
  lemma {:induction false} NextPage(setup: Setup, world: World, pages: seq<seq<Key>>, i: nat, weather: Key -> Weather)
    requires i < |pages|
    requires Distinct(Flatten(pages)) && forall key | key in Flatten(pages) :: key in world.table
    ensures Distinct(pages[i]) && forall key | key in pages[i] :: key in world.table
    ensures forall key | key in Flatten(pages[..i]) + pages[i] :: key in world.table
    ensures Flatten(pages[..i + 1]) == Flatten(pages[..i]) + pages[i]
    ensures MigrateAll(setup, world, Flatten(pages[..i]), weather).table.Keys == world.table.Keys
    ensures MigrateAll(setup, world, Flatten(pages[..i + 1]), weather).table.Keys == world.table.Keys
    ensures MigrateAll(setup, world, Flatten(pages[..i + 1]), weather)
         == MigrateAll(setup, MigrateAll(setup, world, Flatten(pages[..i]), weather), pages[i], weather)
  {
    var s, u := Flatten(pages[..i]), Flatten(pages[i + 1..]);
    FlattenSplit(pages, i + 1);
    FlattenNext(pages, i);
    DistinctParts(s, pages[i], u);
    MigrateAllConcat(setup, world, s, pages[i], weather);
    MigrateAllConcat(setup, world, s + pages[i], [], weather);
  }

  class Migrator {
    const setup: Setup
    var table: map<Key, Attrs>
    var bucket: Bucket
    var counts: Counts

    ghost function View(): World
      reads this
    {
      World(table, bucket, counts)
    }

    method CopyInputPayload(rec: MigrationRecord, w: Weather) returns (raised: bool)
      modifies this`bucket, this`counts
      ensures var p := CopyInput(setup, old(bucket), rec, w);
              raised == p.raised && bucket == p.bucket && counts == old(counts) + p.counts
    {
      if rec.executionId == "" {
        return false;
      }
      if rec.payloadId.None? {
        return true;
      }
      var oldKey := rec.payloadId.value + "/input.json";
      var newKey := ExecutionKey(setup.root, rec.payloadId.value, rec.executionId, InputFile);
      if setup.dryRun {
        counts := counts + multiset{S3Copied};
        return false;
      }
      raised := false;
      match w.copy
      case Exception => raised := true;
      case ClientFault => counts := counts + multiset{S3CopyErrors};
      case Fine =>
        if oldKey in bucket {
          bucket := bucket[newKey := bucket[oldKey]];
          counts := counts + multiset{S3Copied};
        } else {
          counts := counts + multiset{Skipped};
        }
    }

    method StoreOutput(outputKey: string, w: Weather) returns (raised: bool)
      modifies this`bucket, this`counts
      ensures var p := FetchOutput(old(bucket), outputKey, w);
              raised == p.raised && bucket == p.bucket && counts == old(counts) + p.counts
    {
      raised := false;
      match w.described
      case DescribeException => raised := true;
      case DescribeFault => counts := counts + multiset{SfnOutputErrors};
      case Gone => counts := counts + multiset{Skipped};
      case NoOutput => counts := counts + multiset{Skipped};
      case Output(body) =>
        match w.put
        case Exception => raised := true;
        case ClientFault => counts := counts + multiset{SfnOutputErrors};
        case Fine =>
          bucket := bucket[outputKey := body];
          counts := counts + multiset{S3OutputUploaded};
    }

    method CopyOutputPayload(rec: MigrationRecord, w: Weather) returns (raised: bool)
      modifies this`bucket, this`counts
      ensures var p := CopyOutput(setup, old(bucket), rec, w);
              raised == p.raised && bucket == p.bucket && counts == old(counts) + p.counts
    {
      if !rec.completed || !w.recent || rec.executionId == "" {
        return false;
      }
      if rec.payloadId.None? {
        return true;
      }
      var outputKey := ExecutionKey(setup.root, rec.payloadId.value, rec.executionId, OutputFile);
      if setup.dryRun {
        counts := counts + multiset{S3OutputUploaded};
        return false;
      }
      raised := StoreOutput(outputKey, w);
    }

    method UpdateDbRecord(key: Key, rec: MigrationRecord, w: Weather) returns (raised: bool)
      requires key in table
      modifies this`table, this`counts
      ensures var u := UpdateDb(setup, rec, w);
              && raised == u.raised && counts == old(counts) + u.counts
              && table == if u.wrote then old(table)[key := Apply(old(table)[key], rec.plan)] else old(table)
    {
      if IsNoop(rec.plan) {
        return false;
      }
      if setup.dryRun {
        if rec.payloadId.None? {
          return true;
        }
        counts := counts + multiset{DbUpdated};
        return false;
      }
      raised := false;
      match w.update
      case Exception => raised := true;
      case ClientFault =>
        counts := counts + multiset{DbErrors};
        raised := rec.payloadId.None?;
      case Fine =>
        table := table[key := Apply(table[key], rec.plan)];
        counts := counts + multiset{DbUpdated};
    }

    method CopyPayloads(rec: MigrationRecord, w: Weather) returns (raised: bool)
      modifies this`bucket, this`counts
      ensures var p := CopyPayloadsOf(setup, old(bucket), rec, w);
              raised == p.raised && bucket == p.bucket && counts == old(counts) + p.counts
    {
      raised := CopyInputPayload(rec, w);
      if !raised {
        raised := CopyOutputPayload(rec, w);
      }
    }

    method Migrate(key: Key, rec: MigrationRecord, w: Weather) returns (raised: bool)
      requires key in table
      modifies this`table, this`bucket, this`counts
      ensures var m := MigrateRecord(setup, old(bucket), rec, w);
              && raised == m.raised && bucket == m.bucket && counts == old(counts) + m.counts
              && table == if m.wrote then old(table)[key := Apply(old(table)[key], rec.plan)] else old(table)
    {
      raised := false;
      if !rec.alreadyMigrated {
        raised := CopyPayloads(rec, w);
        if !raised {
          raised := UpdateDbRecord(key, rec, w);
        }
      }
    }

    /** One turn of the loop of `run`, with its counting and its exception handler. */
    method ProcessItem(key: Key, rec: MigrationRecord, w: Weather)
      requires key in table
      modifies this`table, this`bucket, this`counts
      ensures View() == ProcessRecord(setup, old(View()), key, rec, w)
    {
      counts := counts + multiset{Processed};
      ghost var m := MigrateRecord(setup, bucket, rec, w);
      CountedInOrder(old(counts), m);
      var raised := Migrate(key, rec, w);
      if raised {
        counts := counts + multiset{UnexpectedErrors};
      }
    }

    /** One page of the scan: its items are read first, then migrated one after the other. */
    method ProcessPage(page: seq<Key>, weather: Key -> Weather)
      requires Distinct(page) && forall key | key in page :: key in table
      modifies this`table, this`bucket, this`counts
      ensures View() == MigrateAll(setup, old(View()), page, weather)
    {
      var items := table;
      ghost var start := View();
      var j := 0;
      while j < |page|
        invariant 0 <= j <= |page|
        invariant View() == MigrateAll(setup, start, page[..j], weather)
      {
        NextItem(setup, start, page, j, weather);
        ProcessItem(page[j], RecordOf(page[j], items[page[j]]), weather(page[j]));
        j := j + 1;
      }
      assert page[..j] == page;
    }

    /** `run`: page after page, until the scan returns no further key. */
    method Run(pages: seq<seq<Key>>, weather: Key -> Weather)
      requires Distinct(Flatten(pages)) && forall key | key in Flatten(pages) :: key in table
      modifies this`table, this`bucket, this`counts
      ensures View() == MigrateAll(setup, old(View()), Flatten(pages), weather)
    {
      ghost var start, done := View(), [];
      var i := 0;
      while i < |pages|
        invariant 0 <= i <= |pages|
        invariant done == Flatten(pages[..i])
        invariant forall key | key in done :: key in start.table
        invariant table.Keys == start.table.Keys
        invariant View() == MigrateAll(setup, start, done, weather)
      {
        NextPage(setup, start, pages, i, weather);
        ProcessPage(pages[i], weather);
        done := done + pages[i];
        i := i + 1;
      }
      assert pages[..i] == pages;
    }
  }
}
