/** The driver of the test: size the dispatcher slots for every job, then
    walk the Kafka clusters, their producers and each producer's consumers,
    taking one dispatcher slot per job, submitting the job and appending
    `<dispatcher>,<submission id>` to the submissions file. */
module Driver {
  import opened Results
  import opened Text
  import opened Providing
  import opened Dispatchers
  import opened Arguments
  import opened Ledger
  import opened Topology

  /** The command-line options the loops use, after `int(...)`. */
  datatype Options = Options(
    producersPerKafka: int,
    consumersPerProducer: int,
    producerMustFail: bool,
    producerNumberOfWords: int,
    producerWordsPerSecond: int,
    producerSparkCoresMax: int,
    producerSparkExecutorCores: int,
    consumerMustFail: bool,
    consumerWriteToCassandra: bool,
    consumerBatchSizeSeconds: int,
    consumerSparkCoresMax: int,
    consumerSparkExecutorCores: int)

  /** What a run depends on besides the dispatcher list: the Kafka clusters
      of the infrastructure file, the Cassandra endpoints, the options, and
      the external calls: `normalize_string`, the broker endpoints of a
      cluster, and the id the submission service returns for the n-th
      submission. */
  datatype Env = Env(
    kafkas: seq<KafkaCluster>,
    cassandraDns: seq<string>,
    options: Options,
    normalize: string -> string,
    brokerDns: KafkaCluster -> seq<string>,
    submit: (Submission, nat) -> string)

  /** The exception that ends a run. */
  datatype RunError =
    | ProvideFailed(provideError: ProvideError)
    | ParseFailed(line: string, parseError: ParseError)
    | BuildFailed(buildError: BuildError)

  /** Where a run stands: the provider's cursor, the submissions made, the
      lines appended to the submissions file, and the exception, once one
      has been raised. */
  datatype RunState = RunState(cursor: nat, submissions: seq<Submission>, entries: seq<Entry>,
                               failure: Option<RunError>)

  /** `num_jobs = num_kafkas * num_producers_per_kafka * (1 + num_consumers_per_producer)`,
      computed as the source does. */
  function NumJobs(env: Env): (n: int)
    ensures env.options.producersPerKafka >= 0 && env.options.consumersPerProducer >= 0 ==> n == |Jobs(env)|
  {
    AllJobsCount(|env.kafkas|, env.options.producersPerKafka, env.options.consumersPerProducer);
    var numProducers := |env.kafkas| * env.options.producersPerKafka;
    numProducers + numProducers * env.options.consumersPerProducer
  }

  function Jobs(env: Env): seq<Job>
  {
    AllJobs(|env.kafkas|, env.options.producersPerKafka, env.options.consumersPerProducer)
  }

  predicate KnownClusters(env: Env, jobs: seq<Job>)
  {
    forall i :: 0 <= i < |jobs| ==> jobs[i].kafka < |env.kafkas|
  }

  lemma JobsKnown(env: Env)
    ensures KnownClusters(env, Jobs(env))
  {
    var jobs := Jobs(env);
    forall i | 0 <= i < |jobs|
      ensures jobs[i].kafka < |env.kafkas|
    {
      AllJobsMembers(|env.kafkas|, env.options.producersPerKafka, env.options.consumersPerProducer, jobs[i]);
    }
  }

  /** Builds the arguments of one job, given its cluster and dispatcher. */
  type Builder = (KafkaCluster, Job, Dispatcher) -> Result<Submission, BuildError>

  /** The arguments of `_submit_producer` or `_submit_consumer` for a job
      run on dispatcher `d`: the topic is the normalised cluster name and
      the producer index, the keyspace the normalised topic, the group id
      the topic and the consumer index, the table `table_<consumer index>`;
      the dispatcher's executor role serves as the driver role. Only a
      consumer can fail, on unreadable Cassandra endpoints. */
  function JobSubmission(env: Env, kafka: KafkaCluster, job: Job, d: Dispatcher): (r: Result<Submission, BuildError>)
    ensures r.Err? <==> job.Consumer? && CassandraPort(env.cassandraDns).Err?
    ensures r.Ok? ==> r.value.serviceName == d.serviceName && r.value.driverRole == d.executorRole
  {
    var o := env.options;
    var topic := TopicName(env.normalize, kafka, job.producer);
    match job
    case Producer(_, _) =>
      Ok(ProducerSubmission(env.brokerDns(kafka), d.serviceName, d.executorRole, topic,
                            o.producerNumberOfWords, o.producerWordsPerSecond, o.producerSparkCoresMax,
                            o.producerSparkExecutorCores, o.producerMustFail))
    case Consumer(_, _, c) =>
      ConsumerSubmission(env.brokerDns(kafka), env.cassandraDns, d.serviceName, d.executorRole, topic,
                         GroupId(topic, c), o.consumerWriteToCassandra, o.consumerBatchSizeSeconds,
                         env.normalize(topic), TableName(c), o.consumerSparkCoresMax,
                         o.consumerSparkExecutorCores, o.consumerMustFail)
  }

  function Build(env: Env): Builder
  {
    (kafka, job, d) => JobSubmission(env, kafka, job, d)
  }

  /** One job: `provide()`, `parse_dispatcher`, build the arguments, submit,
      `append_submission`. A raised exception ends the run, so a failed
      state stays as it is. Every job of a run names a listed cluster
      (`JobsKnown`); the second test only keeps `Step` total. */
  function Step(env: Env, build: Builder, slots: seq<string>, st: RunState, job: Job): RunState
  {
    if st.failure.Some? || job.kafka >= |env.kafkas| then st
    else if st.cursor >= |slots| then st.(failure := Some(ProvideFailed(Exhausted)))
    else
      var line := slots[st.cursor];
      var provided := st.(cursor := st.cursor + 1);
      match ParseDispatcher(line)
      case Err(e) => provided.(failure := Some(ParseFailed(line, e)))
      case Ok(d) =>
        match build(env.kafkas[job.kafka], job, d)
        case Err(e) => provided.(failure := Some(BuildFailed(e)))
        case Ok(sub) =>
          var id := env.submit(sub, |st.submissions|);
          provided.(submissions := st.submissions + [sub], entries := st.entries + [Entry(d.serviceName, id)])
  }

  /** The jobs run one after the other from a fresh provider. */
  function RunJobs(env: Env, build: Builder, slots: seq<string>, jobs: seq<Job>): RunState
    decreases |jobs|
  {
    if jobs == [] then RunState(0, [], [], None)
    else Step(env, build, slots, RunJobs(env, build, slots, jobs[..|jobs| - 1]), jobs[|jobs| - 1])
  }

  /** The whole run: the provider is built first (an empty dispatcher list
      fails there, before any job), then every job in loop order. */
  function Drive(env: Env, dispatchers: seq<string>): RunState
  {
    match Prepare(dispatchers, NumJobs(env))
    case Err(e) => RunState(0, [], [], Some(ProvideFailed(e)))
    case Ok(slots) => RunJobs(env, Build(env), slots, Jobs(env))
  }

  // ---------------------------------------------------------------------
  // What a run does, for any way of building arguments

  lemma RunJobsSnoc(env: Env, build: Builder, slots: seq<string>, jobs: seq<Job>, job: Job)
    ensures RunJobs(env, build, slots, jobs + [job]) == Step(env, build, slots, RunJobs(env, build, slots, jobs), job)
  {
    assert (jobs + [job])[..|jobs|] == jobs;
  }

  /** Once an exception is raised nothing more happens: running further
      jobs leaves the state as it was. */
  lemma {:induction false} FailureAbsorbs(env: Env, build: Builder, slots: seq<string>, jobs: seq<Job>,
                                          more: seq<Job>)
    requires jobs <= more
    requires RunJobs(env, build, slots, jobs).failure.Some?
    ensures RunJobs(env, build, slots, more) == RunJobs(env, build, slots, jobs)
    decreases |more|
  {
    if |more| > |jobs| {
      var shorter := more[..|more| - 1];
      assert jobs <= shorter;
      FailureAbsorbs(env, build, slots, jobs, shorter);
    } else {
      assert jobs == more;
    }
  }

  /** Job `job`, the `i`-th of the run, took slot `i`, whose line parsed;
      it was submitted as `sub`, built for it and that dispatcher, and left
      the line `e`: the dispatcher's name and the id of submission `i`. */
  predicate SubmittedAs(env: Env, build: Builder, slots: seq<string>, job: Job, i: nat, sub: Submission, e: Entry)
    requires job.kafka < |env.kafkas|
  {
    i < |slots| && ParseDispatcher(slots[i]).Ok? &&
    build(env.kafkas[job.kafka], job, ParseDispatcher(slots[i]).value) == Ok(sub) &&
    e == Entry(ParseDispatcher(slots[i]).value.serviceName, env.submit(sub, i))
  }

  /** Every job that got as far as its submission did so from its own slot;
      a run without an exception did this for every job, one slot each. */
  predicate Consistent(env: Env, build: Builder, slots: seq<string>, jobs: seq<Job>, st: RunState)
    requires KnownClusters(env, jobs)
  {
    |st.entries| == |st.submissions| <= |jobs| &&
    |st.entries| <= st.cursor &&
    (st.failure.None? ==> |st.entries| == |jobs| == st.cursor <= |slots|) &&
    forall i :: 0 <= i < |st.entries| ==>
      SubmittedAs(env, build, slots, jobs[i], i, st.submissions[i], st.entries[i])
  }

  lemma {:induction false} RunJobsConsistent(env: Env, build: Builder, slots: seq<string>, jobs: seq<Job>)
    requires KnownClusters(env, jobs)
    ensures Consistent(env, build, slots, jobs, RunJobs(env, build, slots, jobs))
    decreases |jobs|
  {
    if jobs != [] {
      var prefix := jobs[..|jobs| - 1];
      var job := jobs[|jobs| - 1];
      assert KnownClusters(env, prefix);
      RunJobsConsistent(env, build, slots, prefix);
      var st := RunJobs(env, build, slots, prefix);
      var next := RunJobs(env, build, slots, jobs);
      assert next == Step(env, build, slots, st, job);
      if next.entries == st.entries {
        assert next.submissions == st.submissions;
        forall i | 0 <= i < |next.entries|
          ensures SubmittedAs(env, build, slots, jobs[i], i, next.submissions[i], next.entries[i])
        {
          assert jobs[i] == prefix[i];
        }
      } else {
        var d := ParseDispatcher(slots[st.cursor]).value;
        var sub := build(env.kafkas[job.kafka], job, d).value;
        assert next.submissions == st.submissions + [sub];
        assert next.entries == st.entries + [Entry(d.serviceName, env.submit(sub, |st.submissions|))];
        forall i | 0 <= i < |next.entries|
          ensures SubmittedAs(env, build, slots, jobs[i], i, next.submissions[i], next.entries[i])
        {
          if i < |st.entries| {
            assert jobs[i] == prefix[i];
          }
        }
      }
    }
  }

  /** The jobs that can all be submitted: each has a slot, whose line
      parses, and its arguments can be built. */
  predicate Submittable(env: Env, build: Builder, slots: seq<string>, jobs: seq<Job>)
    requires KnownClusters(env, jobs)
  {
    |jobs| <= |slots| &&
    forall i :: 0 <= i < |jobs| ==> Buildable(env, build, slots[i], jobs[i])
  }

  predicate Buildable(env: Env, build: Builder, line: string, job: Job)
    requires job.kafka < |env.kafkas|
  {
    ParseDispatcher(line).Ok? && build(env.kafkas[job.kafka], job, ParseDispatcher(line).value).Ok?
  }

  lemma SubmittableSnoc(env: Env, build: Builder, slots: seq<string>, jobs: seq<Job>)
    requires KnownClusters(env, jobs) && jobs != []
    ensures KnownClusters(env, jobs[..|jobs| - 1])
    ensures Submittable(env, build, slots, jobs) <==>
      Submittable(env, build, slots, jobs[..|jobs| - 1]) && |jobs| <= |slots| &&
      Buildable(env, build, slots[|jobs| - 1], jobs[|jobs| - 1])
  {
    var prefix := jobs[..|jobs| - 1];
    assert forall i :: 0 <= i < |prefix| ==> prefix[i] == jobs[i];
  }

  /** A run raises no exception exactly when every job can be submitted. */
  lemma {:induction false} RunJobsSucceeds(env: Env, build: Builder, slots: seq<string>, jobs: seq<Job>)
    requires KnownClusters(env, jobs)
    ensures RunJobs(env, build, slots, jobs).failure.None? <==> Submittable(env, build, slots, jobs)
    decreases |jobs|
  {
    if jobs != [] {
      var prefix := jobs[..|jobs| - 1];
      var job := jobs[|jobs| - 1];
      SubmittableSnoc(env, build, slots, jobs);
      RunJobsSucceeds(env, build, slots, prefix);
      RunJobsConsistent(env, build, slots, prefix);
      var st := RunJobs(env, build, slots, prefix);
      assert RunJobs(env, build, slots, jobs) == Step(env, build, slots, st, job);
      if st.failure.None? {
        StepSucceeds(env, build, slots, st, job);
      }
    }
  }

  /** From a state without exception, one more job raises none exactly
      when a slot is left and the job can be submitted from it. */
  lemma StepSucceeds(env: Env, build: Builder, slots: seq<string>, st: RunState, job: Job)
    requires st.failure.None? && job.kafka < |env.kafkas|
    ensures Step(env, build, slots, st, job).failure.None? <==>
      st.cursor < |slots| && Buildable(env, build, slots[st.cursor], job)
  {
  }

  // ---------------------------------------------------------------------
  // What the run does

  /** A negative consumer count still runs the producers but lowers
      `num_jobs` below their number: with one cluster, one producer and `-1`
      consumers per producer, `num_jobs` is 0, no slot is prepared, and the
      first `provide()` raises `StopIteration`. */
  lemma NegativeCountExhausts(env: Env, line: string)
    requires |env.kafkas| == 1
    requires env.options.producersPerKafka == 1 && env.options.consumersPerProducer == -1
    ensures NumJobs(env) == 0 && |Jobs(env)| == 1
    ensures Drive(env, [line]).failure == Some(ProvideFailed(Exhausted))
  {
    assert Prepare([line], 0) == Ok([]);
    assert Jobs(env) == [Producer(0, 0)];
    assert RunJobs(env, Build(env), [], [Producer(0, 0)]) ==
           Step(env, Build(env), [], RunState(0, [], [], None), Producer(0, 0));
  }

  /** An empty dispatcher list ends the run before any job, dividing by
      zero. */
  lemma NoDispatchersFails(env: Env)
    ensures Drive(env, []) == RunState(0, [], [], Some(ProvideFailed(DivisionByZero)))
  {
  }

  lemma DriveRuns(env: Env, dispatchers: seq<string>)
    requires |dispatchers| > 0
    ensures Prepare(dispatchers, NumJobs(env)).Ok? && KnownClusters(env, Jobs(env))
    ensures Drive(env, dispatchers) ==
      RunJobs(env, Build(env), Prepare(dispatchers, NumJobs(env)).value, Jobs(env))
  {
    JobsKnown(env);
  }

  /** A run with dispatchers succeeds exactly when every job can be
      submitted from its slot; it then appends one line per job. */
  lemma DriveSucceeds(env: Env, dispatchers: seq<string>)
    requires |dispatchers| > 0
    ensures Prepare(dispatchers, NumJobs(env)).Ok? && KnownClusters(env, Jobs(env))
    ensures var slots := Prepare(dispatchers, NumJobs(env)).value;
      (Drive(env, dispatchers).failure.None? <==> Submittable(env, Build(env), slots, Jobs(env))) &&
      (Drive(env, dispatchers).failure.None? ==> |Drive(env, dispatchers).entries| == |Jobs(env)|)
  {
    DriveRuns(env, dispatchers);
    var slots := Prepare(dispatchers, NumJobs(env)).value;
    RunJobsSucceeds(env, Build(env), slots, Jobs(env));
    RunJobsConsistent(env, Build(env), slots, Jobs(env));
  }

  /** With non-negative counts, well-formed dispatcher lines and readable
      Cassandra endpoints whenever a consumer runs, the run succeeds and
      appends `num_jobs` lines. */
  lemma WellFormedRunSucceeds(env: Env, dispatchers: seq<string>)
    requires |dispatchers| > 0
    requires env.options.producersPerKafka >= 0 && env.options.consumersPerProducer >= 0
    requires forall i :: 0 <= i < |dispatchers| ==> multiset(dispatchers[i])[','] == 2
    requires |env.kafkas| > 0 && env.options.producersPerKafka > 0 && env.options.consumersPerProducer > 0
             ==> CassandraPort(env.cassandraDns).Ok?
    ensures Drive(env, dispatchers).failure.None?
    ensures |Drive(env, dispatchers).entries| == NumJobs(env)
  {
    DriveSucceeds(env, dispatchers);
    var slots := Prepare(dispatchers, NumJobs(env)).value;
    var jobs := Jobs(env);
    AllJobsCount(|env.kafkas|, env.options.producersPerKafka, env.options.consumersPerProducer);
    assert |jobs| == NumJobs(env) <= |slots|;
    forall i | 0 <= i < |jobs|
      ensures Buildable(env, Build(env), slots[i], jobs[i])
    {
      SlotBuildable(env, dispatchers, i);
    }
  }

  /** Under the same conditions, the slot taken for the `i`-th job parses
      and that job can be built. */
  lemma SlotBuildable(env: Env, dispatchers: seq<string>, i: nat)
    requires |dispatchers| > 0 && i < |Jobs(env)| && i < |Prepare(dispatchers, NumJobs(env)).value|
    requires forall i :: 0 <= i < |dispatchers| ==> multiset(dispatchers[i])[','] == 2
    requires |env.kafkas| > 0 && env.options.producersPerKafka > 0 && env.options.consumersPerProducer > 0
             ==> CassandraPort(env.cassandraDns).Ok?
    ensures Jobs(env)[i].kafka < |env.kafkas|
    ensures Buildable(env, Build(env), Prepare(dispatchers, NumJobs(env)).value[i], Jobs(env)[i])
  {
    var line := Prepare(dispatchers, NumJobs(env)).value[i];
    SlotIsDispatcher(dispatchers, NumJobs(env), i);
    JobInRun(env, i);
    LineBuildable(env, line, Jobs(env)[i]);
  }

  /** Every slot is one of the dispatcher lines. */
  lemma SlotIsDispatcher(dispatchers: seq<string>, numJobs: int, i: nat)
    requires |dispatchers| > 0 && i < |Prepare(dispatchers, numJobs).value|
    ensures Prepare(dispatchers, numJobs).value[i] in dispatchers
  {
    var cap := Cap(numJobs, |dispatchers|);
    assert Prepare(dispatchers, numJobs).value == RepeatEach(dispatchers, cap);
    assert cap > 0 by {
      assert |dispatchers| * Clamp(cap) > 0;
    }
    SlotAt(dispatchers, cap, i);
  }

  /** The `i`-th job of a run names a listed cluster, and a consumer only
      runs when there are clusters, producers and consumers. */
  lemma JobInRun(env: Env, i: nat)
    requires i < |Jobs(env)|
    ensures Jobs(env)[i].kafka < |env.kafkas|
    ensures Jobs(env)[i].Consumer? ==>
      |env.kafkas| > 0 && env.options.producersPerKafka > 0 && env.options.consumersPerProducer > 0
  {
    AllJobsMembers(|env.kafkas|, env.options.producersPerKafka, env.options.consumersPerProducer, Jobs(env)[i]);
  }

  /** A well-formed dispatcher line, and a job whose Cassandra port can be
      read if it is a consumer: the line parses and the job builds. */
  lemma LineBuildable(env: Env, line: string, job: Job)
    requires multiset(line)[','] == 2 && job.kafka < |env.kafkas|
    requires job.Consumer? ==> CassandraPort(env.cassandraDns).Ok?
    ensures Buildable(env, Build(env), line, job)
  {
    ParseDispatcherSpec(line);
    var d := ParseDispatcher(line).value;
    assert Build(env)(env.kafkas[job.kafka], job, d) == JobSubmission(env, env.kafkas[job.kafka], job, d);
  }

  /** The `i`-th line of the submissions file names the dispatcher of block
      `i / max_num_jobs_per_dispatcher`: dispatchers are filled one after
      the other, in file order. */
  lemma EntryDispatcher(env: Env, dispatchers: seq<string>, i: nat)
    requires i < |Drive(env, dispatchers).entries|
    ensures |dispatchers| > 0
    ensures var cap := Cap(NumJobs(env), |dispatchers|);
      cap > 0 && i / cap < |dispatchers| &&
      ParseDispatcher(dispatchers[i / cap]).Ok? &&
      Drive(env, dispatchers).entries[i].dispatcher == ParseDispatcher(dispatchers[i / cap]).value.serviceName
  {
    DriveRuns(env, dispatchers);
    var slots := Prepare(dispatchers, NumJobs(env)).value;
    var cap := Cap(NumJobs(env), |dispatchers|);
    var st := Drive(env, dispatchers);
    RunJobsConsistent(env, Build(env), slots, Jobs(env));
    assert SubmittedAs(env, Build(env), slots, Jobs(env)[i], i, st.submissions[i], st.entries[i]);
    assert i < |slots| == |dispatchers| * Clamp(cap);
    assert Clamp(cap) != 0;
    SlotAt(dispatchers, cap, i);
  }

  /** The submissions file the run leaves behind reads back as its
      entries, when no dispatcher line and no submission id holds a
      newline. */
  lemma LedgerReadsBack(env: Env, dispatchers: seq<string>)
    requires forall i :: 0 <= i < |dispatchers| ==> '\n' !in dispatchers[i]
    requires forall s, n :: '\n' !in env.submit(s, n)
    ensures ReadLedger(Render(Drive(env, dispatchers).entries)) == Some(Drive(env, dispatchers).entries)
  {
    var es := Drive(env, dispatchers).entries;
    if |dispatchers| > 0 {
      DriveRuns(env, dispatchers);
      var slots := Prepare(dispatchers, NumJobs(env)).value;
      var cap := Cap(NumJobs(env), |dispatchers|);
      forall i | 0 <= i < |slots|
        ensures '\n' !in slots[i]
      {
        assert i < |slots| == |dispatchers| * Clamp(cap);
        assert Clamp(cap) != 0;
        SlotAt(dispatchers, cap, i);
      }
      EntriesReadable(env, Build(env), slots, Jobs(env));
    }
    ReadRender(es);
  }

  lemma EntriesReadable(env: Env, build: Builder, slots: seq<string>, jobs: seq<Job>)
    requires KnownClusters(env, jobs)
    requires forall i :: 0 <= i < |slots| ==> '\n' !in slots[i]
    requires forall s, n :: '\n' !in env.submit(s, n)
    ensures var es := RunJobs(env, build, slots, jobs).entries;
      forall i :: 0 <= i < |es| ==> Readable(es[i])
  {
    var st := RunJobs(env, build, slots, jobs);
    RunJobsConsistent(env, build, slots, jobs);
    forall i | 0 <= i < |st.entries|
      ensures Readable(st.entries[i])
    {
      assert SubmittedAs(env, build, slots, jobs[i], i, st.submissions[i], st.entries[i]);
      FieldOfLine(slots[i]);
    }
  }

  lemma FieldOfLine(line: string)
    requires ParseDispatcher(line).Ok? && '\n' !in line
    ensures '\n' !in ParseDispatcher(line).value.serviceName
  {
    ParseDispatcherSpec(line);
    var d := ParseDispatcher(line).value;
    assert Format(d) == d.serviceName + "," + Join(",", [d.driverRole, d.executorRole]);
    assert line[..|d.serviceName|] == d.serviceName;
  }

  // ---------------------------------------------------------------------
  // The loops

  lemma PrefixTrans<T>(a: seq<T>, b: seq<T>, x: seq<T>)
    requires a <= b
    ensures a <= b + x
  {
    assert (b + x)[..|a|] == b[..|a|];
  }

  lemma PrefixChain<T>(a: seq<T>, b: seq<T>, c: seq<T>)
    requires a <= b && b <= c
    ensures a <= c
  {
    assert c[..|a|] == b[..|a|];
  }

  lemma PrefixAfter<T>(x: seq<T>, a: seq<T>, b: seq<T>)
    requires a <= b
    ensures x + a <= x + b
  {
    assert (x + b)[..|x + a|] == x + a;
  }

  lemma {:induction false} ConsumersPrefix(kafka: nat, producer: nat, c: nat, n: nat)
    requires c <= n
    ensures Consumers(kafka, producer, c) <= Consumers(kafka, producer, n)
    decreases n
  {
    if c < n {
      ConsumersPrefix(kafka, producer, c, n - 1);
      PrefixTrans(Consumers(kafka, producer, c), Consumers(kafka, producer, n - 1), [Consumer(kafka, producer, n - 1)]);
    }
  }

  lemma {:induction false} BlocksPrefix(kafka: nat, p: nat, n: nat, consumers: nat)
    requires p <= n
    ensures ProducerBlocks(kafka, p, consumers) <= ProducerBlocks(kafka, n, consumers)
    decreases n
  {
    if p < n {
      BlocksPrefix(kafka, p, n - 1, consumers);
      PrefixTrans(ProducerBlocks(kafka, p, consumers), ProducerBlocks(kafka, n - 1, consumers),
                  ProducerBlock(kafka, n - 1, consumers));
    }
  }

  lemma {:induction false} ClusterPrefix(k: nat, n: nat, producers: nat, consumers: nat)
    requires k <= n
    ensures ClusterJobs(k, producers, consumers) <= ClusterJobs(n, producers, consumers)
    decreases n
  {
    if k < n {
      ClusterPrefix(k, n - 1, producers, consumers);
      PrefixTrans(ClusterJobs(k, producers, consumers), ClusterJobs(n - 1, producers, consumers),
                  ProducerBlocks(n - 1, producers, consumers));
    }
  }

  /** The producer loop of cluster `kafka` starts and ends where the run
      says: no blocks yet, then all `producers` of them. */
  lemma ClusterComplete(kafka: nat, producers: nat, consumers: nat)
    ensures ClusterJobs(kafka, producers, consumers) + ProducerBlocks(kafka, 0, consumers) == ClusterJobs(kafka, producers, consumers)
    ensures ClusterJobs(kafka, producers, consumers) + ProducerBlocks(kafka, producers, consumers) ==
            ClusterJobs(kafka + 1, producers, consumers)
  {
    assert ProducerBlocks(kafka, 0, consumers) == [];
  }

  /** After the blocks before it, producer `producer` of cluster `kafka`
      and its consumers are the next jobs of the run. */
  lemma ProducerNext(all: seq<Job>, kafka: nat, producer: nat, producers: nat, consumers: nat)
    requires producer < producers && ClusterJobs(kafka + 1, producers, consumers) <= all
    ensures var before := ClusterJobs(kafka, producers, consumers) + ProducerBlocks(kafka, producer, consumers);
      var after := ClusterJobs(kafka, producers, consumers) + ProducerBlocks(kafka, producer + 1, consumers);
      before + [Producer(kafka, producer)] + Consumers(kafka, producer, consumers) == after &&
      after <= all && before + [Producer(kafka, producer)] <= all
  {
    var cluster := ClusterJobs(kafka, producers, consumers);
    var blocks := ProducerBlocks(kafka, producer, consumers);
    var block := ProducerBlock(kafka, producer, consumers);
    assert ProducerBlocks(kafka, producer + 1, consumers) == blocks + block;
    var after := cluster + (blocks + block);
    assert cluster + blocks + [Producer(kafka, producer)] + Consumers(kafka, producer, consumers) == after;
    BlocksPrefix(kafka, producer + 1, producers, consumers);
    PrefixAfter(cluster, blocks + block, ProducerBlocks(kafka, producers, consumers));
    PrefixChain(after, ClusterJobs(kafka + 1, producers, consumers), all);
    PrefixChain(cluster + blocks + [Producer(kafka, producer)], after, all);
  }

  /** Consumer `c` of a producer follows the producer's first `c`
      consumers, and stays within the run when the producer's `n`
      consumers do. */
  lemma ConsumerNext(before: seq<Job>, all: seq<Job>, kafka: nat, producer: nat, c: nat, n: nat)
    requires c < n && before + Consumers(kafka, producer, n) <= all
    ensures before + Consumers(kafka, producer, c) + [Consumer(kafka, producer, c)] ==
            before + Consumers(kafka, producer, c + 1)
    ensures before + Consumers(kafka, producer, c + 1) <= all
  {
    var sofar := Consumers(kafka, producer, c);
    assert Consumers(kafka, producer, c + 1) == sofar + [Consumer(kafka, producer, c)];
    ConsumersPrefix(kafka, producer, c + 1, n);
    PrefixAfter(before, Consumers(kafka, producer, c + 1), Consumers(kafka, producer, n));
    PrefixChain(before + Consumers(kafka, producer, c + 1), before + Consumers(kafka, producer, n), all);
  }

  /** The state of the loops, against the jobs run so far: no exception,
      the provider's cursor, the submissions made and the file's text. */
  predicate Tracks(env: Env, build: Builder, slots: seq<string>, done: seq<Job>, cursor: nat,
                   submitted: seq<Submission>, content: string, initial: string)
  {
    var st := RunJobs(env, build, slots, done);
    st.failure == None && st.cursor == cursor && st.submissions == submitted &&
    content == initial + Render(st.entries)
  }

  /** Where the loops stop once the jobs `done` raised an exception: the
      run's exception, with the provider's cursor, the submissions made and
      the file's text as they stood when it was raised. */
  predicate Stopped(env: Env, build: Builder, slots: seq<string>, done: seq<Job>, failure: Option<RunError>,
                    cursor: nat, submitted: seq<Submission>, content: string, initial: string)
  {
    var st := RunJobs(env, build, slots, done);
    failure.Some? && failure == st.failure && st.cursor == cursor && st.submissions == submitted &&
    content == initial + Render(st.entries)
  }

  /** One pass of a loop body: take a slot, parse it, build and submit the
      job, append its line. */
  method SubmitJob(env: Env, build: Builder, provider: DispatcherProvider, ledger: LedgerFile, job: Job,
                   submitted: seq<Submission>, ghost st: RunState, ghost initial: string)
    returns (failure: Option<RunError>, nowSubmitted: seq<Submission>)
    requires job.kafka < |env.kafkas|
    requires provider.Valid() && st.failure == None && st.cursor == provider.strategy.cursor
    requires submitted == st.submissions && ledger.content == initial + Render(st.entries)
    modifies provider.strategy, ledger
    ensures provider.Valid()
    ensures var next := Step(env, build, provider.strategy.slots, st, job);
      failure == next.failure && nowSubmitted == next.submissions && provider.strategy.cursor == next.cursor &&
      ledger.content == initial + Render(next.entries)
  {
    nowSubmitted := submitted;
    var provided := provider.Provide();
    if provided.Err? {
      return Some(ProvideFailed(provided.error)), nowSubmitted;
    }
    var line := provided.value;
    var parsed := ParseDispatcher(line);
    if parsed.Err? {
      return Some(ParseFailed(line, parsed.error)), nowSubmitted;
    }
    var d := parsed.value;
    var built := build(env.kafkas[job.kafka], job, d);
    if built.Err? {
      return Some(BuildFailed(built.error)), nowSubmitted;
    }
    var id := env.submit(built.value, |submitted|);
    ledger.Append(d.serviceName, id);
    RenderAppend(st.entries, Entry(d.serviceName, id));
    failure := None;
    nowSubmitted := submitted + [built.value];
  }

  /** `SubmitJob` for the next job of the run: on success the loops' state
      tracks one job more; on an exception the loops stop where the whole
      run stops. */
  method SubmitNext(env: Env, build: Builder, provider: DispatcherProvider, ledger: LedgerFile, job: Job,
                    submitted: seq<Submission>, ghost done: seq<Job>, ghost all: seq<Job>,
                    ghost initial: string)
    returns (failure: Option<RunError>, nowSubmitted: seq<Submission>)
    requires job.kafka < |env.kafkas| && provider.Valid() && done + [job] <= all
    requires Tracks(env, build, provider.strategy.slots, done, provider.strategy.cursor, submitted, ledger.content, initial)
    modifies provider.strategy, ledger
    ensures provider.Valid()
    ensures failure.Some? ==> Stopped(env, build, provider.strategy.slots, all, failure, provider.strategy.cursor,
                                 nowSubmitted, ledger.content, initial)
    ensures failure.None? ==> Tracks(env, build, provider.strategy.slots, done + [job], provider.strategy.cursor,
                                     nowSubmitted, ledger.content, initial)
  {
    ghost var slots := provider.strategy.slots;
    RunJobsSnoc(env, build, slots, done, job);
    failure, nowSubmitted := SubmitJob(env, build, provider, ledger, job, submitted,
                                       RunJobs(env, build, slots, done), initial);
    if failure.Some? {
      FailureAbsorbs(env, build, slots, done + [job], all);
    }
  }

  /** The driver's three nested loops, from a fresh provider: the exception
      that ended the run, if any, the submissions made, the provider's cursor
      and the lines appended are those of the run, whether or not it failed. */
  method RunLoops(env: Env, build: Builder, provider: DispatcherProvider, ledger: LedgerFile)
    returns (failure: Option<RunError>, submitted: seq<Submission>)
    requires provider.Valid() && provider.strategy.cursor == 0
    modifies provider.strategy, ledger
    ensures var final := RunJobs(env, build, provider.strategy.slots, Jobs(env));
      failure == final.failure && submitted == final.submissions && provider.strategy.cursor == final.cursor &&
      ledger.content == old(ledger.content) + Render(final.entries)
  {
    var numKafkas := |env.kafkas|;
    submitted := [];
    ghost var slots := provider.strategy.slots;
    ghost var initial := ledger.content;
    ghost var producers := Clamp(env.options.producersPerKafka);
    ghost var consumers := Clamp(env.options.consumersPerProducer);
    assert ClusterJobs(numKafkas, producers, consumers) == Jobs(env);
    assert ledger.content == initial + Render([]);
    var k := 0;
    while k < numKafkas
      invariant 0 <= k <= numKafkas
      invariant provider.Valid()
      invariant Tracks(env, build, slots, ClusterJobs(k, producers, consumers), provider.strategy.cursor,
                       submitted, ledger.content, initial)
    {
      ClusterPrefix(k + 1, numKafkas, producers, consumers);
      failure, submitted := RunCluster(env, build, provider, ledger, k, submitted, Jobs(env), initial);
      if failure.Some? {
        return;
      }
      k := k + 1;
    }
    failure := None;
  }

  /** The producer loop of one Kafka cluster. */
  method RunCluster(env: Env, build: Builder, provider: DispatcherProvider, ledger: LedgerFile, k: nat,
                    submitted: seq<Submission>, ghost all: seq<Job>, ghost initial: string)
    returns (failure: Option<RunError>, nowSubmitted: seq<Submission>)
    requires k < |env.kafkas| && provider.Valid()
    requires var producers := Clamp(env.options.producersPerKafka);
      var consumers := Clamp(env.options.consumersPerProducer);
      ClusterJobs(k + 1, producers, consumers) <= all &&
      Tracks(env, build, provider.strategy.slots, ClusterJobs(k, producers, consumers), provider.strategy.cursor,
             submitted, ledger.content, initial)
    modifies provider.strategy, ledger
    ensures provider.Valid()
    ensures var producers := Clamp(env.options.producersPerKafka);
      var consumers := Clamp(env.options.consumersPerProducer);
      (failure.Some? ==> Stopped(env, build, provider.strategy.slots, all, failure, provider.strategy.cursor,
                                 nowSubmitted, ledger.content, initial)) &&
      (failure.None? ==> Tracks(env, build, provider.strategy.slots, ClusterJobs(k + 1, producers, consumers),
                                provider.strategy.cursor, nowSubmitted, ledger.content, initial))
  {
    ghost var slots := provider.strategy.slots;
    ghost var producers := Clamp(env.options.producersPerKafka);
    ghost var consumers := Clamp(env.options.consumersPerProducer);
    nowSubmitted := submitted;
    ClusterComplete(k, producers, consumers);
    var p := 0;
    while p < env.options.producersPerKafka
      invariant 0 <= p <= producers
      invariant provider.Valid()
      invariant Tracks(env, build, slots, ClusterJobs(k, producers, consumers) + ProducerBlocks(k, p, consumers),
                       provider.strategy.cursor, nowSubmitted, ledger.content, initial)
    {
      failure, nowSubmitted := RunProducer(env, build, provider, ledger, k, p, nowSubmitted, all, initial);
      if failure.Some? {
        return;
      }
      p := p + 1;
    }
    assert p == producers;
    assert ClusterJobs(k, producers, consumers) + ProducerBlocks(k, p, consumers) ==
           ClusterJobs(k + 1, producers, consumers);
    failure := None;
  }

  /** One producer followed by its consumer loop. */
  method RunProducer(env: Env, build: Builder, provider: DispatcherProvider, ledger: LedgerFile, k: nat, p: nat,
                     submitted: seq<Submission>, ghost all: seq<Job>, ghost initial: string)
    returns (failure: Option<RunError>, nowSubmitted: seq<Submission>)
    requires k < |env.kafkas| && p < Clamp(env.options.producersPerKafka) && provider.Valid()
    requires var producers := Clamp(env.options.producersPerKafka);
      var consumers := Clamp(env.options.consumersPerProducer);
      ClusterJobs(k + 1, producers, consumers) <= all &&
      Tracks(env, build, provider.strategy.slots, ClusterJobs(k, producers, consumers) + ProducerBlocks(k, p, consumers),
             provider.strategy.cursor, submitted, ledger.content, initial)
    modifies provider.strategy, ledger
    ensures provider.Valid()
    ensures var producers := Clamp(env.options.producersPerKafka);
      var consumers := Clamp(env.options.consumersPerProducer);
      (failure.Some? ==> Stopped(env, build, provider.strategy.slots, all, failure, provider.strategy.cursor,
                                 nowSubmitted, ledger.content, initial)) &&
      (failure.None? ==> Tracks(env, build, provider.strategy.slots,
                                ClusterJobs(k, producers, consumers) + ProducerBlocks(k, p + 1, consumers),
                                provider.strategy.cursor, nowSubmitted, ledger.content, initial))
  {
    ghost var producers := Clamp(env.options.producersPerKafka);
    ghost var consumers := Clamp(env.options.consumersPerProducer);
    ghost var before := ClusterJobs(k, producers, consumers) + ProducerBlocks(k, p, consumers);
    ProducerNext(all, k, p, producers, consumers);
    failure, nowSubmitted := SubmitNext(env, build, provider, ledger, Producer(k, p), submitted, before, all, initial);
    if failure.Some? {
      return;
    }
    failure, nowSubmitted := RunConsumers(env, build, provider, ledger, k, p, nowSubmitted,
                                          before + [Producer(k, p)], all, initial);
  }

  /** The consumer loop of one producer, after the jobs `before` it. */
  method RunConsumers(env: Env, build: Builder, provider: DispatcherProvider, ledger: LedgerFile, k: nat, p: nat,
                      submitted: seq<Submission>, ghost before: seq<Job>, ghost all: seq<Job>, ghost initial: string)
    returns (failure: Option<RunError>, nowSubmitted: seq<Submission>)
    requires k < |env.kafkas| && provider.Valid()
    requires before + Consumers(k, p, Clamp(env.options.consumersPerProducer)) <= all
    requires Tracks(env, build, provider.strategy.slots, before, provider.strategy.cursor, submitted, ledger.content, initial)
    modifies provider.strategy, ledger
    ensures provider.Valid()
    ensures failure.Some? ==> Stopped(env, build, provider.strategy.slots, all, failure, provider.strategy.cursor,
                                 nowSubmitted, ledger.content, initial)
    ensures failure.None? ==>
      Tracks(env, build, provider.strategy.slots, before + Consumers(k, p, Clamp(env.options.consumersPerProducer)),
             provider.strategy.cursor, nowSubmitted, ledger.content, initial)
  {
    ghost var consumers := Clamp(env.options.consumersPerProducer);
    nowSubmitted := submitted;
    assert before + Consumers(k, p, 0) == before;
    var c := 0;
    while c < env.options.consumersPerProducer
      invariant 0 <= c <= consumers
      invariant provider.Valid()
      invariant Tracks(env, build, provider.strategy.slots, before + Consumers(k, p, c),
                       provider.strategy.cursor, nowSubmitted, ledger.content, initial)
    {
      failure, nowSubmitted := RunConsumer(env, build, provider, ledger, k, p, c, nowSubmitted, before, all, initial);
      if failure.Some? {
        return;
      }
      c := c + 1;
    }
    assert c == consumers;
    return None, nowSubmitted;
  }

  /** One pass of the consumer loop: consumer `c` of producer `p`. */
  method RunConsumer(env: Env, build: Builder, provider: DispatcherProvider, ledger: LedgerFile, k: nat, p: nat,
                     c: nat, submitted: seq<Submission>, ghost before: seq<Job>, ghost all: seq<Job>,
                     ghost initial: string)
    returns (failure: Option<RunError>, nowSubmitted: seq<Submission>)
    requires k < |env.kafkas| && provider.Valid() && c < Clamp(env.options.consumersPerProducer)
    requires before + Consumers(k, p, Clamp(env.options.consumersPerProducer)) <= all
    requires Tracks(env, build, provider.strategy.slots, before + Consumers(k, p, c), provider.strategy.cursor,
                    submitted, ledger.content, initial)
    modifies provider.strategy, ledger
    ensures provider.Valid()
    ensures failure.Some? ==> Stopped(env, build, provider.strategy.slots, all, failure, provider.strategy.cursor,
                                 nowSubmitted, ledger.content, initial)
    ensures failure.None? ==>
      Tracks(env, build, provider.strategy.slots, before + Consumers(k, p, c + 1),
             provider.strategy.cursor, nowSubmitted, ledger.content, initial)
  {
    ConsumerNext(before, all, k, p, c, Clamp(env.options.consumersPerProducer));
    failure, nowSubmitted := SubmitNext(env, build, provider, ledger, Consumer(k, p, c), submitted,
                                        before + Consumers(k, p, c), all, initial);
  }

  /** The `__main__` block from the provider on: the run ends with the
      exception `Drive` predicts, if any, and the submissions file gains
      exactly the lines of the jobs submitted before it. */
  method RunFanout(env: Env, dispatchers: seq<string>, ledger: LedgerFile)
    returns (failure: Option<RunError>, submitted: seq<Submission>)
    modifies ledger
    ensures failure == Drive(env, dispatchers).failure
    ensures submitted == Drive(env, dispatchers).submissions
    ensures ledger.content == old(ledger.content) + Render(Drive(env, dispatchers).entries)
  {
    var numProducers := |env.kafkas| * env.options.producersPerKafka;
    var numConsumers := numProducers * env.options.consumersPerProducer;
    var numJobs := numProducers + numConsumers;
    var created := NewDispatcherProvider(dispatchers, numJobs);
    if created.Err? {
      assert ledger.content == old(ledger.content) + Render([]);
      return Some(ProvideFailed(created.error)), [];
    }
    var provider := created.value;
    ghost var slots := provider.strategy.slots;
    assert Prepare(dispatchers, NumJobs(env)) == Ok(slots);
    DriveRuns(env, dispatchers);
    ghost var run := RunJobs(env, Build(env), slots, Jobs(env));
    assert Drive(env, dispatchers) == run;
    failure, submitted := RunLoops(env, Build(env), provider, ledger);
  }
}
