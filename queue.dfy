/**
 * The queue orchestrator `processTranslationQueue`: jobs run one after another;
 * each job extracts its document's strings, cuts them into chunks, sends every
 * chunk through the retrying provider client and writes each reply back into a
 * copy of the document. A job that throws is dropped and the run goes on.
 */
module Queue {
  import opened Wrappers
  import opened Json
  import opened Walker
  import opened Batching
  import opened Sequences
  import opened Types
  import opened Prompt
  import opened Provider

  // ---------------------------------------------------------------------------
  // Reassembly of one reply
  // ---------------------------------------------------------------------------

  /**
   * The reply's entry number `idx`, in key enumeration order, goes to chunk item
   * `idx`, whatever its key; entries beyond the chunk have no item and are skipped.
   */
  function ReplyWrites(chunkItems: seq<Item>, reply: seq<Field>): (writes: seq<Write>)
    ensures |writes| == if |reply| < |chunkItems| then |reply| else |chunkItems|
    ensures forall k :: 0 <= k < |writes| ==> writes[k] == Write(chunkItems[k].path, reply[k].value)
  {
    var n := if |reply| < |chunkItems| then |reply| else |chunkItems|;
    seq(n, k requires 0 <= k < n => Write(chunkItems[k].path, reply[k].value))
  }

  /** The write-back of one reply into the working copy. */
  function ApplyReply(doc: Json, chunkItems: seq<Item>, reply: seq<Field>): Result<Json>
  {
    WriteAll(doc, ReplyWrites(chunkItems, reply))
  }

  /** `Object.keys(translatedChunk).forEach(...)`: the write-back loop. */
  method WriteBackReply(doc: Json, chunkItems: seq<Item>, reply: seq<Field>) returns (r: Result<Json>)
    ensures r == ApplyReply(doc, chunkItems, reply)
  {
    ghost var writes := ReplyWrites(chunkItems, reply);
    var translated := doc;
    var index := 0;
    while index < |reply|
      invariant 0 <= index <= |reply|
      invariant WriteAll(translated, writes[if index < |writes| then index else |writes|..]) == WriteAll(doc, writes)
    {
      if index < |chunkItems| {
        var originalItem := chunkItems[index];
        assert writes[index..][1..] == writes[index + 1..];
        match Update(translated, originalItem.path, reply[index].value) {
          case Err(e) =>
            return Err(e);
          case Ok(d) =>
            translated := d;
        }
      }
      index := index + 1;
    }
    assert writes[|writes|..] == [];
    r := Ok(translated);
  }

  /**
   * Reassembly of one reply into a document where the chunk's leaves exist and
   * are separate: it succeeds; the leaf of item `idx` receives reply entry `idx`
   * when there is one and keeps its value otherwise; entries beyond the chunk
   * change nothing; and no location separate from the chunk's leaves changes.
   */
  lemma ApplyReplyEffect(doc: Json, chunkItems: seq<Item>, reply: seq<Field>)
    requires SeparateItems(chunkItems)
    requires forall j :: 0 <= j < |chunkItems| ==> chunkItems[j].path != [] && Get(doc, chunkItems[j].path).Some?
    ensures ApplyReply(doc, chunkItems, reply).Ok?
    ensures forall j :: 0 <= j < |chunkItems| ==>
      Get(ApplyReply(doc, chunkItems, reply).value, chunkItems[j].path) ==
        if j < |reply| then Some(reply[j].value) else Get(doc, chunkItems[j].path)
    ensures |reply| > |chunkItems| ==> ApplyReply(doc, chunkItems, reply) == ApplyReply(doc, chunkItems, reply[..|chunkItems|])
    ensures forall q :: (forall j :: 0 <= j < |chunkItems| ==> Disjoint(chunkItems[j].path, q)) ==>
      Get(ApplyReply(doc, chunkItems, reply).value, q) == Get(doc, q)
  {
    var writes := ReplyWrites(chunkItems, reply);
    WriteAllEffect(doc, writes);
    var d := ApplyReply(doc, chunkItems, reply).value;
    forall j | |writes| <= j < |chunkItems| ensures Get(d, chunkItems[j].path) == Get(doc, chunkItems[j].path) {
      WriteAllOther(doc, writes, chunkItems[j].path);
    }
    forall q | (forall j :: 0 <= j < |chunkItems| ==> Disjoint(chunkItems[j].path, q))
      ensures Get(d, q) == Get(doc, q)
    {
      WriteAllOther(doc, writes, q);
    }
    if |reply| > |chunkItems| {
      assert ReplyWrites(chunkItems, reply) == ReplyWrites(chunkItems, reply[..|chunkItems|]);
    }
  }

  /**
   * Reassembly never reads the reply's key names: two replies with the same
   * values in the same enumeration order are written back alike, so a reply that
   * lists `val_1` before `val_0` sends each value to the other leaf.
   */
  lemma ReplyKeysIgnored(doc: Json, chunkItems: seq<Item>, reply: seq<Field>, other: seq<Field>)
    requires |reply| == |other| && forall k :: 0 <= k < |reply| ==> reply[k].value == other[k].value
    ensures ApplyReply(doc, chunkItems, reply) == ApplyReply(doc, chunkItems, other)
  {
    assert ReplyWrites(chunkItems, reply) == ReplyWrites(chunkItems, other);
  }

  // ---------------------------------------------------------------------------
  // Jobs and the run, as functions
  // ---------------------------------------------------------------------------

  /** The prompt for one chunk. */
  function ChunkPrompt(chunkItems: seq<Item>, languageName: string, config: Config): string
  {
    BuildPrompt(Keyed(chunkItems), languageName, config)
  }

  /**
   * The chunks from number `k` on, sent in order and written back into `doc`;
   * the first provider failure or failed write-back ends the job. Gives the
   * outcome, the next attempt number and the number of chunks sent so far.
   */
  function RunChunks(doc: Json, chunks: seq<seq<Item>>, k: nat, languageName: string, config: Config,
                     provider: Oracle, clock: nat): (Result<Json>, nat, nat)
    requires k <= |chunks|
    decreases |chunks| - k
  {
    if k == |chunks| then (Ok(doc), clock, k)
    else
      var (outcome, next) := Attempts(ChunkPrompt(chunks[k], languageName, config), provider, clock, DefaultRetries);
      match outcome
      case Failed(message) => (Err(message), next, k + 1)
      case Translated(reply) =>
        match ApplyReply(doc, chunks[k], reply)
        case Err(e) => (Err(e), next, k + 1)
        case Ok(d) => RunChunks(d, chunks, k + 1, languageName, config, provider, next)
  }

  /**
   * A job that goes through has sent every chunk; one that stops has sent the
   * chunk it stopped at, and no chunk is counted before it is reached.
   */
  lemma {:induction false} RunChunksSent(doc: Json, chunks: seq<seq<Item>>, k: nat, languageName: string,
                                         config: Config, provider: Oracle, clock: nat)
    requires k <= |chunks|
    ensures var run := RunChunks(doc, chunks, k, languageName, config, provider, clock);
      && k <= run.2 <= |chunks|
      && (run.0.Ok? ==> run.2 == |chunks|)
      && (run.0.Err? ==> k < run.2)
    decreases |chunks| - k
  {
    if k < |chunks| {
      var attempt := Attempts(ChunkPrompt(chunks[k], languageName, config), provider, clock, DefaultRetries);
      if attempt.0.Translated? {
        var written := ApplyReply(doc, chunks[k], attempt.0.reply);
        if written.Ok? {
          RunChunksSent(written.value, chunks, k + 1, languageName, config, provider, attempt.1);
        }
      }
    }
  }

  /** The chunks of a job's document. */
  function JobChunks(job: TranslationJob, config: Config): seq<seq<Item>>
    requires config.settings.chunkSize > 0
  {
    Chunks(Extract(job.file.parsedJson, []), config.settings.chunkSize)
  }

  /** One job: its result if every chunk went through, and the next attempt number. */
  function RunJob(job: TranslationJob, config: Config, provider: Oracle, clock: nat): (Option<TranslationResult>, nat)
    requires config.settings.chunkSize > 0
  {
    var doc := job.file.parsedJson;
    var (translated, next, _) := RunChunks(doc, JobChunks(job, config), 0, job.language.name, config, provider, clock);
    if translated.Ok? then (Some(TranslationResult(job.file.name, job.language.code, translated.value)), next)
    else (None, next)
  }

  /** How many chunks of a job are sent. */
  function JobSent(job: TranslationJob, config: Config, provider: Oracle, clock: nat): nat
    requires config.settings.chunkSize > 0
  {
    RunChunks(job.file.parsedJson, JobChunks(job, config), 0, job.language.name, config, provider, clock).2
  }

  /** The outcome of every job, in job order. */
  function RunQueue(jobs: seq<TranslationJob>, config: Config, provider: Oracle, clock: nat): seq<Option<TranslationResult>>
    requires config.settings.chunkSize > 0
    decreases |jobs|
  {
    if jobs == [] then []
    else
      var (outcome, next) := RunJob(jobs[0], config, provider, clock);
      [outcome] + RunQueue(jobs[1..], config, provider, next)
  }

  /** The results of the jobs that succeeded, in order. */
  function Successes<T>(outcomes: seq<Option<T>>): seq<T>
  {
    if outcomes == [] then []
    else
      var last := outcomes[|outcomes| - 1];
      Successes(outcomes[..|outcomes| - 1]) + (if last.Some? then [last.value] else [])
  }

  lemma SuccessesSnoc<T>(outcomes: seq<Option<T>>, last: Option<T>)
    ensures Successes(outcomes + [last]) == Successes(outcomes) + if last.Some? then [last.value] else []
  {
    assert (outcomes + [last])[..|outcomes|] == outcomes;
  }

  // ---------------------------------------------------------------------------
  // What a run delivers
  // ---------------------------------------------------------------------------

  /** The items still to be written: separate, each naming a location present in `doc`. */
  ghost predicate Pending(doc: Json, items: seq<Item>)
  {
    SeparateItems(items) && forall n :: 0 <= n < |items| ==> items[n].path != [] && Get(doc, items[n].path).Some?
  }

  /** The leaves of a well-formed document that is not itself a string are pending. */
  lemma ExtractPending(doc: Json)
    requires WellFormed(doc) && !doc.Str?
    ensures Pending(doc, Extract(doc, []))
  {
    var items := Extract(doc, []);
    ExtractExactlyLeaves(doc);
    assert Get(doc, []) == Some(doc);
    forall n | 0 <= n < |items| ensures items[n].path != [] && Get(doc, items[n].path).Some? {
      assert items[n] in items;
    }
  }

  /** Writing one chunk back leaves the later chunks' leaves pending. */
  lemma PendingAfterReply(doc: Json, items: seq<Item>, rest: seq<Item>, reply: seq<Field>)
    requires Pending(doc, items + rest)
    ensures Pending(doc, items) && ApplyReply(doc, items, reply).Ok?
    ensures Pending(ApplyReply(doc, items, reply).value, rest)
  {
    var all := items + rest;
    forall a, b | 0 <= a < b < |items| ensures Disjoint(items[a].path, items[b].path) {
      assert items[a] == all[a] && items[b] == all[b];
    }
    forall n | 0 <= n < |items| ensures items[n].path != [] && Get(doc, items[n].path).Some? {
      assert items[n] == all[n];
    }
    ApplyReplyEffect(doc, items, reply);
    var d := ApplyReply(doc, items, reply).value;
    forall n | 0 <= n < |rest| ensures rest[n].path != [] && Get(d, rest[n].path).Some? {
      assert rest[n] == all[|items| + n];
      forall j | 0 <= j < |items| ensures Disjoint(items[j].path, rest[n].path) {
        assert items[j] == all[j];
      }
    }
    forall a, b | 0 <= a < b < |rest| ensures Disjoint(rest[a].path, rest[b].path) {
      assert rest[a] == all[|items| + a] && rest[b] == all[|items| + b];
    }
  }

  /** With a provider that always answers, every pending chunk is written back. */
  lemma {:induction false} RunChunksReliable(doc: Json, chunks: seq<seq<Item>>, k: nat, languageName: string,
                                             config: Config, provider: Oracle, clock: nat)
    requires k <= |chunks|
    requires forall prompt, t :: provider(prompt, t).Reply?
    requires Pending(doc, Concat(chunks[k..]))
    ensures RunChunks(doc, chunks, k, languageName, config, provider, clock).0.Ok?
    decreases |chunks| - k
  {
    if k < |chunks| {
      ConcatFrom(chunks, k);
      var prompt := ChunkPrompt(chunks[k], languageName, config);
      var reply := provider(prompt, clock).fields;
      assert Attempts(prompt, provider, clock, DefaultRetries) == (Translated(reply), clock + 1);
      PendingAfterReply(doc, chunks[k], Concat(chunks[k + 1..]), reply);
      RunChunksReliable(ApplyReply(doc, chunks[k], reply).value, chunks, k + 1, languageName, config, provider, clock + 1);
    }
  }

  /** A job whose document holds no string succeeds with the document as it was. */
  lemma JobWithoutStrings(job: TranslationJob, config: Config, provider: Oracle, clock: nat)
    requires config.settings.chunkSize > 0
    requires Extract(job.file.parsedJson, []) == []
    ensures RunJob(job, config, provider, clock) ==
      (Some(TranslationResult(job.file.name, job.language.code, job.file.parsedJson)), clock)
  {
    assert JobChunks(job, config) == [];
  }

  /** With a provider that always answers, a well-formed document that is not a bare string is translated. */
  lemma JobReliable(job: TranslationJob, config: Config, provider: Oracle, clock: nat)
    requires config.settings.chunkSize > 0
    requires forall prompt, t :: provider(prompt, t).Reply?
    requires WellFormed(job.file.parsedJson) && !job.file.parsedJson.Str?
    ensures RunJob(job, config, provider, clock).0.Some?
  {
    var doc := job.file.parsedJson;
    var chunks := JobChunks(job, config);
    ChunksPartition(Extract(doc, []), config.settings.chunkSize);
    ExtractPending(doc);
    assert chunks[0..] == chunks;
    RunChunksReliable(doc, chunks, 0, job.language.name, config, provider, clock);
  }

  /** With a provider that never answers, a job with at least one string fails. */
  lemma JobFailing(job: TranslationJob, config: Config, provider: Oracle, clock: nat)
    requires config.settings.chunkSize > 0
    requires forall prompt, t :: provider(prompt, t).Failure?
    requires Extract(job.file.parsedJson, []) != []
    ensures RunJob(job, config, provider, clock).0 == None
  {
    var doc := job.file.parsedJson;
    var chunks := JobChunks(job, config);
    ChunksPartition(Extract(doc, []), config.settings.chunkSize);
    AttemptsFirstSuccess(ChunkPrompt(chunks[0], job.language.name, config), provider, clock, DefaultRetries);
  }

  /** The attempt number each job starts from. */
  function StartClocks(jobs: seq<TranslationJob>, config: Config, provider: Oracle, clock: nat): (starts: seq<nat>)
    requires config.settings.chunkSize > 0
    decreases |jobs|
  {
    if jobs == [] then []
    else [clock] + StartClocks(jobs[1..], config, provider, RunJob(jobs[0], config, provider, clock).1)
  }

  /**
   * Jobs are isolated: the run has one outcome per job, in job order, and each
   * is that job run on its own from its start number, whatever became of the
   * jobs before it.
   */
  lemma {:induction false} RunQueueJobs(jobs: seq<TranslationJob>, config: Config, provider: Oracle, clock: nat)
    requires config.settings.chunkSize > 0
    ensures |RunQueue(jobs, config, provider, clock)| == |StartClocks(jobs, config, provider, clock)| == |jobs|
    ensures forall i :: 0 <= i < |jobs| ==>
      RunQueue(jobs, config, provider, clock)[i] == RunJob(jobs[i], config, provider, StartClocks(jobs, config, provider, clock)[i]).0
    decreases |jobs|
  {
    if jobs != [] {
      var next := RunJob(jobs[0], config, provider, clock).1;
      RunQueueJobs(jobs[1..], config, provider, next);
      forall i | 1 <= i < |jobs| ensures jobs[1..][i - 1] == jobs[i] { }
    }
  }

  /** Every result carries the name of its job's file and the code of its job's language. */
  lemma ResultsNameTheirJobs(jobs: seq<TranslationJob>, config: Config, provider: Oracle)
    requires config.settings.chunkSize > 0
    ensures var outcomes := RunQueue(jobs, config, provider, 0);
      |outcomes| == |jobs| &&
      forall i :: 0 <= i < |jobs| && outcomes[i].Some? ==>
        outcomes[i].value.fileName == jobs[i].file.name && outcomes[i].value.languageCode == jobs[i].language.code
  {
    RunQueueJobs(jobs, config, provider, 0);
  }

  /** A job whose document holds no string comes back unchanged, whatever the provider does. */
  lemma StringlessJobsPassThrough(jobs: seq<TranslationJob>, config: Config, provider: Oracle)
    requires config.settings.chunkSize > 0
    ensures var outcomes := RunQueue(jobs, config, provider, 0);
      |outcomes| == |jobs| &&
      forall i :: 0 <= i < |jobs| && Extract(jobs[i].file.parsedJson, []) == [] ==>
        outcomes[i] == Some(TranslationResult(jobs[i].file.name, jobs[i].language.code, jobs[i].file.parsedJson))
  {
    var outcomes := RunQueue(jobs, config, provider, 0);
    RunQueueJobs(jobs, config, provider, 0);
    forall i | 0 <= i < |jobs| && Extract(jobs[i].file.parsedJson, []) == []
      ensures outcomes[i] == Some(TranslationResult(jobs[i].file.name, jobs[i].language.code, jobs[i].file.parsedJson))
    {
      var c := StartClocks(jobs, config, provider, 0)[i];
      JobWithoutStrings(jobs[i], config, provider, c);
    }
  }

  /**
   * With a provider that always answers, every job on a well-formed document
   * that is not a bare string yields a result.
   */
  lemma ReliableProviderCompletesAll(jobs: seq<TranslationJob>, config: Config, provider: Oracle)
    requires config.settings.chunkSize > 0
    requires forall prompt, t :: provider(prompt, t).Reply?
    requires forall i :: 0 <= i < |jobs| ==> WellFormed(jobs[i].file.parsedJson) && !jobs[i].file.parsedJson.Str?
    ensures |Successes(RunQueue(jobs, config, provider, 0))| == |jobs|
  {
    var outcomes := RunQueue(jobs, config, provider, 0);
    RunQueueJobs(jobs, config, provider, 0);
    forall i | 0 <= i < |jobs| ensures outcomes[i].Some? {
      var c := StartClocks(jobs, config, provider, 0)[i];
      JobReliable(jobs[i], config, provider, c);
    }
    SuccessesAll(outcomes);
  }

  /** With a provider that never answers, exactly the jobs without strings yield a result. */
  lemma FailingProviderKeepsStringless(jobs: seq<TranslationJob>, config: Config, provider: Oracle)
    requires config.settings.chunkSize > 0
    requires forall prompt, t :: provider(prompt, t).Failure?
    ensures var outcomes := RunQueue(jobs, config, provider, 0);
      |outcomes| == |jobs| &&
      forall i :: 0 <= i < |jobs| ==> (outcomes[i].Some? <==> Extract(jobs[i].file.parsedJson, []) == [])
  {
    var outcomes := RunQueue(jobs, config, provider, 0);
    RunQueueJobs(jobs, config, provider, 0);
    forall i | 0 <= i < |jobs| ensures outcomes[i].Some? <==> Extract(jobs[i].file.parsedJson, []) == [] {
      var c := StartClocks(jobs, config, provider, 0)[i];
      if Extract(jobs[i].file.parsedJson, []) == [] {
        JobWithoutStrings(jobs[i], config, provider, c);
      } else {
        JobFailing(jobs[i], config, provider, c);
      }
    }
  }

  /** When every outcome is a result, there are as many results as outcomes. */
  lemma {:induction false} SuccessesAll<T>(outcomes: seq<Option<T>>)
    requires forall i :: 0 <= i < |outcomes| ==> outcomes[i].Some?
    ensures |Successes(outcomes)| == |outcomes|
    decreases |outcomes|
  {
    if outcomes != [] {
      SuccessesAll(outcomes[..|outcomes| - 1]);
    }
  }

  // ---------------------------------------------------------------------------
  // Progress
  // ---------------------------------------------------------------------------

  /** `(position / totalJobs) * 100`, in exact arithmetic. */
  function Percent(position: real, totalJobs: nat): real
    requires totalJobs > 0
  {
    position / totalJobs as real * 100.0
  }

  /**
   * How far the run is, in jobs, when chunk `k` of the `n` chunks of job `i`
   * starts: `i + k / n`; a job without chunks stays at `i`.
   */
  function Position(i: nat, k: nat, n: nat): real
  {
    if n == 0 then i as real else i as real + k as real / n as real
  }

  /**
   * What job `i` of `totalJobs` reports when `sent` of its `n` chunks are sent:
   * `i / totalJobs` as it starts, then `(i + k / n) / totalJobs` before chunk `k`,
   * in percent.
   */
  function JobReports(i: nat, totalJobs: nat, n: nat, sent: nat): (reports: seq<real>)
    requires totalJobs > 0
    ensures |reports| == sent + 1 && reports[0] == Percent(i as real, totalJobs)
    ensures forall k :: 0 <= k < sent ==> reports[k + 1] == Percent(Position(i, k, n), totalJobs)
    decreases sent
  {
    if sent == 0 then [Percent(i as real, totalJobs)]
    else JobReports(i, totalJobs, n, sent - 1) + [Percent(Position(i, sent - 1, n), totalJobs)]
  }

  /** What the jobs from number `i` on report, one job after another. */
  function QueueReports(jobs: seq<TranslationJob>, config: Config, provider: Oracle, clock: nat,
                        i: nat, totalJobs: nat): seq<real>
    requires config.settings.chunkSize > 0 && i + |jobs| <= totalJobs
    decreases |jobs|
  {
    if jobs == [] then []
    else
      JobReports(i, totalJobs, |JobChunks(jobs[0], config)|, JobSent(jobs[0], config, provider, clock)) +
      QueueReports(jobs[1..], config, provider, RunJob(jobs[0], config, provider, clock).1, i + 1, totalJobs)
  }

  /**
   * After the first `i` jobs, the outcomes and the reports so far, followed by
   * those of the remaining jobs from attempt number `clock`, are the whole run's.
   */
  ghost predicate RunSoFar(jobs: seq<TranslationJob>, config: Config, provider: Oracle, i: nat, clock: nat,
                           outcomes: seq<Option<TranslationResult>>, progress: seq<real>)
    requires config.settings.chunkSize > 0 && i <= |jobs|
  {
    && outcomes + RunQueue(jobs[i..], config, provider, clock) == RunQueue(jobs, config, provider, 0)
    && progress + QueueReports(jobs[i..], config, provider, clock, i, |jobs|) ==
       QueueReports(jobs, config, provider, 0, 0, |jobs|)
  }

  /** Before the first job nothing has happened; after the last, everything has. */
  lemma RunSoFarEnds(jobs: seq<TranslationJob>, config: Config, provider: Oracle, clock: nat,
                     outcomes: seq<Option<TranslationResult>>, progress: seq<real>)
    requires config.settings.chunkSize > 0
    ensures RunSoFar(jobs, config, provider, 0, 0, [], [])
    ensures RunSoFar(jobs, config, provider, |jobs|, clock, outcomes, progress) ==>
      outcomes == RunQueue(jobs, config, provider, 0) && progress == QueueReports(jobs, config, provider, 0, 0, |jobs|)
  {
    assert jobs[0..] == jobs && jobs[|jobs|..] == [];
  }

  /** Running job `i` moves the run one job on. */
  lemma RunSoFarStep(jobs: seq<TranslationJob>, config: Config, provider: Oracle, i: nat, clock: nat,
                     outcomes: seq<Option<TranslationResult>>, progress: seq<real>)
    requires config.settings.chunkSize > 0 && i < |jobs|
    requires RunSoFar(jobs, config, provider, i, clock, outcomes, progress)
    ensures RunSoFar(jobs, config, provider, i + 1, RunJob(jobs[i], config, provider, clock).1,
                     outcomes + [RunJob(jobs[i], config, provider, clock).0],
                     progress + JobReports(i, |jobs|, |JobChunks(jobs[i], config)|, JobSent(jobs[i], config, provider, clock)))
  {
    var job, next := jobs[i], RunJob(jobs[i], config, provider, clock).1;
    RunQueueUnfold(jobs, i, config, provider, clock);
    QueueReportsUnfold(jobs, i, config, provider, clock);
    var outcome, later := RunJob(job, config, provider, clock).0, RunQueue(jobs[i + 1..], config, provider, next);
    var reports := JobReports(i, |jobs|, |JobChunks(job, config)|, JobSent(job, config, provider, clock));
    var laterReports := QueueReports(jobs[i + 1..], config, provider, next, i + 1, |jobs|);
    assert outcomes + ([outcome] + later) == outcomes + [outcome] + later;
    assert progress + (reports + laterReports) == progress + reports + laterReports;
  }

  lemma RunQueueUnfold(jobs: seq<TranslationJob>, i: nat, config: Config, provider: Oracle, clock: nat)
    requires config.settings.chunkSize > 0 && i < |jobs|
    ensures RunQueue(jobs[i..], config, provider, clock) ==
      [RunJob(jobs[i], config, provider, clock).0] + RunQueue(jobs[i + 1..], config, provider, RunJob(jobs[i], config, provider, clock).1)
  {
    assert jobs[i..][0] == jobs[i] && jobs[i..][1..] == jobs[i + 1..];
  }

  lemma QueueReportsUnfold(jobs: seq<TranslationJob>, i: nat, config: Config, provider: Oracle, clock: nat)
    requires config.settings.chunkSize > 0 && i < |jobs|
    ensures QueueReports(jobs[i..], config, provider, clock, i, |jobs|) ==
      JobReports(i, |jobs|, |JobChunks(jobs[i], config)|, JobSent(jobs[i], config, provider, clock)) +
      QueueReports(jobs[i + 1..], config, provider, RunJob(jobs[i], config, provider, clock).1, i + 1, |jobs|)
  {
    assert jobs[i..][0] == jobs[i] && jobs[i..][1..] == jobs[i + 1..];
  }

  predicate Monotone(s: seq<real>)
  {
    forall a, b :: 0 <= a < b < |s| ==> s[a] <= s[b]
  }

  /** Every value of `s` lies in [0, `hi`]. */
  predicate Within(s: seq<real>, hi: real)
  {
    forall a :: 0 <= a < |s| ==> 0.0 <= s[a] <= hi
  }

  lemma PercentMonotone(x: real, y: real, totalJobs: nat)
    requires totalJobs > 0 && 0.0 <= x <= y <= totalJobs as real
    ensures 0.0 <= Percent(x, totalJobs) <= Percent(y, totalJobs) <= 100.0
  {
    var t := totalJobs as real;
    assert x / t <= y / t;
    assert y / t <= 1.0;
  }

  /** The last job done is 100 percent. */
  lemma PercentWhole(totalJobs: nat)
    requires totalJobs > 0
    ensures Percent(totalJobs as real, totalJobs) == 100.0
  {
    var t := totalJobs as real;
    assert t / t == 1.0;
  }

  /** Within a job the position starts at `i`, grows chunk by chunk and ends at `i + 1`. */
  lemma PositionStep(i: nat, k: nat, n: nat)
    requires k < n
    ensures Position(i, 0, n) == i as real
    ensures i as real <= Position(i, k, n) <= Position(i, k + 1, n) <= (i + 1) as real
    ensures Position(i, n, n) == (i + 1) as real
  {
    var m := n as real;
    assert k as real / m <= (k + 1) as real / m;
    assert (k + 1) as real / m <= 1.0;
  }

  /** Appending a report no smaller than any before keeps the reports monotone. */
  lemma Report(reported: seq<real>, v: real, bound: real)
    requires Monotone(reported) && Within(reported, v)
    requires 0.0 <= v <= bound
    ensures Monotone(reported + [v]) && Within(reported + [v], bound)
  {
  }

  /** The report that opens job `i` keeps the reports monotone and below the first chunk's position. */
  lemma ReportJobStart(progress: seq<real>, i: nat, n: nat, totalJobs: nat)
    requires i < totalJobs
    requires Monotone(progress) && Within(progress, Percent(i as real, totalJobs))
    ensures Monotone(progress + [Percent(i as real, totalJobs)])
    ensures Within(progress + [Percent(i as real, totalJobs)], Percent(Position(i, 0, n), totalJobs))
  {
    PercentMonotone(i as real, (i + 1) as real, totalJobs);
    if n > 0 {
      PositionStep(i, 0, n);
    }
    Report(progress, Percent(i as real, totalJobs), Percent(i as real, totalJobs));
  }

  /** The report before chunk `k` keeps the reports monotone and below the position after it. */
  lemma ReportChunk(reported: seq<real>, i: nat, k: nat, n: nat, totalJobs: nat)
    requires i < totalJobs && k < n
    requires Monotone(reported) && Within(reported, Percent(Position(i, k, n), totalJobs))
    ensures Monotone(reported + [Percent(Position(i, k, n), totalJobs)])
    ensures Within(reported + [Percent(Position(i, k, n), totalJobs)], Percent(Position(i, k + 1, n), totalJobs))
  {
    PositionStep(i, k, n);
    PercentMonotone(Position(i, k, n), Position(i, k + 1, n), totalJobs);
    Report(reported, Percent(Position(i, k, n), totalJobs), Percent(Position(i, k + 1, n), totalJobs));
  }

  /** Wherever a job stops, its reports stay below the start of the next job. */
  lemma ReportJobEnd(reported: seq<real>, i: nat, k: nat, n: nat, totalJobs: nat)
    requires i < totalJobs && k <= n
    requires Within(reported, Percent(Position(i, k, n), totalJobs))
    ensures Within(reported, Percent((i + 1) as real, totalJobs))
  {
    if k < n {
      PositionStep(i, k, n);
    } else if n > 0 {
      PositionStep(i, n - 1, n);
    }
    PercentMonotone(Position(i, k, n), (i + 1) as real, totalJobs);
  }

  /** The report before chunk `k` extends the job's reports by one. */
  lemma JobReportsNext(progress: seq<real>, i: nat, totalJobs: nat, n: nat, k: nat)
    requires totalJobs > 0
    ensures progress + JobReports(i, totalJobs, n, k) + [Percent(Position(i, k, n), totalJobs)] ==
            progress + JobReports(i, totalJobs, n, k + 1)
  {
  }

  /**
   * Whatever number of its chunks a job sends, its reports keep the reports
   * monotone and stay below the start of the next job.
   */
  lemma {:induction false} JobReportsMonotone(progress: seq<real>, i: nat, totalJobs: nat, n: nat, sent: nat)
    requires i < totalJobs && sent <= n
    requires Monotone(progress) && Within(progress, Percent(i as real, totalJobs))
    ensures Monotone(progress + JobReports(i, totalJobs, n, sent))
    ensures Within(progress + JobReports(i, totalJobs, n, sent), Percent(Position(i, sent, n), totalJobs))
    ensures Within(progress + JobReports(i, totalJobs, n, sent), Percent((i + 1) as real, totalJobs))
    decreases sent
  {
    var reports := progress + JobReports(i, totalJobs, n, sent);
    if sent == 0 {
      ReportJobStart(progress, i, n, totalJobs);
    } else {
      var before := progress + JobReports(i, totalJobs, n, sent - 1);
      JobReportsMonotone(progress, i, totalJobs, n, sent - 1);
      ReportChunk(before, i, sent - 1, n, totalJobs);
      assert reports == before + [Percent(Position(i, sent - 1, n), totalJobs)];
    }
    ReportJobEnd(reports, i, sent, n, totalJobs);
  }

  // ---------------------------------------------------------------------------
  // The run, as the source performs it
  // ---------------------------------------------------------------------------

  /**
   * The body of the chunk loop: translate one chunk and write the reply back;
   * the outcome is one step of `RunChunks`.
   */
  method TranslateAndWrite(translated: Json, chunks: seq<seq<Item>>, k: nat, languageName: string, config: Config,
                           provider: Oracle, clock: nat)
    returns (written: Result<Json>, next: nat)
    requires k < |chunks|
    ensures written.Ok? ==>
      RunChunks(translated, chunks, k, languageName, config, provider, clock) ==
      RunChunks(written.value, chunks, k + 1, languageName, config, provider, next)
    ensures written.Err? ==>
      RunChunks(translated, chunks, k, languageName, config, provider, clock) == (Err(written.message), next, k + 1)
  {
    var chunkItems := chunks[k];
    var chunkObject := Keyed(chunkItems);
    var outcome;
    outcome, next := TranslateChunk(chunkObject, languageName, config, provider, clock, DefaultRetries);
    match outcome {
      case Failed(message) =>
        written := Err(message);
      case Translated(reply) =>
        written := WriteBackReply(translated, chunkItems, reply);
    }
  }

  /**
   * One iteration of the job loop: returns the job's outcome with the next
   * attempt number, and appends to the reports `i / totalJobs`, then
   * `(i + k / chunks) / totalJobs` before each chunk `k` it sends; the reports
   * stay monotone and below the start of the next job.
   */
  method TranslateJob(job: TranslationJob, config: Config, provider: Oracle, clock: nat,
                      i: nat, totalJobs: nat, progress: seq<real>)
    returns (result: Option<TranslationResult>, next: nat, reported: seq<real>)
    requires config.settings.chunkSize > 0 && i < totalJobs
    requires Monotone(progress) && Within(progress, Percent(i as real, totalJobs))
    ensures (result, next) == RunJob(job, config, provider, clock)
    ensures reported == progress + JobReports(i, totalJobs, |JobChunks(job, config)|, JobSent(job, config, provider, clock))
    ensures Monotone(reported) && Within(reported, Percent((i + 1) as real, totalJobs))
  {
    var file, language := job.file, job.language;
    var valuesToTranslate := GetValuesToTranslate(file.parsedJson);
    var chunks := ChunkValues(valuesToTranslate, config.settings.chunkSize);
    reported := progress + [Percent(i as real, totalJobs)];
    var translated := file.parsedJson;
    next := clock;
    var k := 0;
    while k < |chunks|
      invariant 0 <= k <= |chunks|
      invariant RunChunks(translated, chunks, k, language.name, config, provider, next) ==
                RunChunks(file.parsedJson, chunks, 0, language.name, config, provider, clock)
      invariant reported == progress + JobReports(i, totalJobs, |chunks|, k)
    {
      JobReportsNext(progress, i, totalJobs, |chunks|, k);
      reported := reported + [Percent(Position(i, k, |chunks|), totalJobs)];
      var written;
      written, next := TranslateAndWrite(translated, chunks, k, language.name, config, provider, next);
      if written.Err? {
        JobReportsMonotone(progress, i, totalJobs, |chunks|, k + 1);
        return None, next, reported;
      }
      translated := written.value;
      k := k + 1;
    }
    JobReportsMonotone(progress, i, totalJobs, |chunks|, k);
    result := Some(TranslationResult(file.name, language.code, translated));
  }

  /**
   * `processTranslationQueue(jobs, config, onProgress)`: the results of the jobs
   * that went through, in job order, and the percentages reported: each job's in
   * turn, then 100; they never decrease, stay within [0, 100] and end at exactly 100.
   */
  method ProcessTranslationQueue(jobs: seq<TranslationJob>, config: Config, provider: Oracle)
    returns (allResults: seq<TranslationResult>, progress: seq<real>)
    requires config.settings.chunkSize > 0
    ensures allResults == Successes(RunQueue(jobs, config, provider, 0))
    ensures progress == QueueReports(jobs, config, provider, 0, 0, |jobs|) + [100.0]
    ensures |progress| > 0 && progress[|progress| - 1] == 100.0
    ensures Monotone(progress) && Within(progress, 100.0)
  {
    var totalJobs := |jobs|;
    allResults, progress := [], [];
    ghost var outcomes: seq<Option<TranslationResult>> := [];
    var clock := 0;
    var i := 0;
    RunSoFarEnds(jobs, config, provider, clock, outcomes, progress);
    while i < totalJobs
      invariant 0 <= i <= totalJobs
      invariant RunSoFar(jobs, config, provider, i, clock, outcomes, progress)
      invariant allResults == Successes(outcomes)
      invariant Monotone(progress)
      invariant totalJobs > 0 ==> Within(progress, Percent(i as real, totalJobs))
      invariant totalJobs == 0 ==> progress == []
    {
      var result, next, reported := TranslateJob(jobs[i], config, provider, clock, i, totalJobs, progress);
      RunSoFarStep(jobs, config, provider, i, clock, outcomes, progress);
      SuccessesSnoc(outcomes, result);
      outcomes := outcomes + [result];
      if result.Some? {
        allResults := allResults + [result.value];
      }
      clock, progress := next, reported;
      i := i + 1;
    }
    RunSoFarEnds(jobs, config, provider, clock, outcomes, progress);
    if totalJobs > 0 {
      PercentWhole(totalJobs);
    }
    Report(progress, 100.0, 100.0);
    progress := progress + [100.0];
  }
}
