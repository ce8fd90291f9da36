# Kafka/Cassandra streaming scale test: the job fan-out

This project models, in Dafny, how the Kafka/Cassandra streaming scale test
spreads its Spark jobs over the Spark dispatchers. It covers:

- the block providing strategy, which gives every dispatcher a block of at most
  `ceil(num_jobs / num_dispatchers)` consecutive jobs;
- the parsing of dispatcher lines `<service>,<driver role>,<executor role>`;
- the argument vectors built for producer jobs (`KafkaRandomFeeder`) and
  consumer jobs (`KafkaWordCount`), including the shared `COMMON_CONF` block;
- the submissions file, which gains one line `<dispatcher>,<submission id>`
  per submitted job;
- the driver's three nested loops: Kafka clusters, then their producers, then
  each producer's consumers.

Modules:

| file | module | models |
|---|---|---|
| results.dfy | `Results` | `Option` and `Result`, which stand for Python's exceptions |
| text.dfy | `Text` | `str.split`, `str.join`, `str(n)` and `'{}-{}'.format` |
| providing.dfy | `Providing` | `prepare`/`provide` of `BlockProvidingStrategy` and the `DispatcherProvider` facade, as classes with a cursor |
| dispatchers.dfy | `Dispatchers` | `parse_dispatcher` |
| arguments.dfy | `Arguments` | `_submit_producer` and `_submit_consumer` up to the submission call; how spark-submit and the applications read those arguments back |
| ledger.dfy | `Ledger` | `append_submission`, as a class holding the file's text |
| topology.dfy | `Topology` | the order and names of the jobs: topics, group ids, tables |
| driver.dfy | `Driver` | the `__main__` fan-out: the run as a function (`Drive`) and as the source's loops (`RunFanout`) |

The run is first specified as a fold of one step per job (`Driver.Step`,
`Driver.RunJobs`, `Driver.Drive`, lines 293-346). Its submissions file is the text
`Ledger.Render` makes of its entries, one `Ledger.Line` each (line 169). `Text.Join` is
`str.join` (lines 87 and 150), and `Providing.RepeatEach` is the `mapcat` of the slot
generator (lines 210-211). These functions are specifications; the lemmas in the table
below state their properties. The nested loops (`Driver.RunLoops` and
the methods below it) drive a `DispatcherProvider` object and a `LedgerFile`
object. They are proved to reach the same outcome as `Drive`: the same
exception, the same submissions and the same file text.

Python's exceptions become `Err` values:

- `ZeroDivisionError` for an empty dispatcher list becomes `DivisionByZero`.
- `StopIteration` once the slots run out becomes `Exhausted`.
- `ValueError` for a dispatcher line without exactly three fields becomes `WrongFieldCount`.
- `IndexError` for a Cassandra endpoint without a port becomes `CassandraPortMissing`.

An exception ends the run at that point; nothing after it happens.

What the code does, where it is easy to misread:

- The provider raises `StopIteration` only after `num_dispatchers * max_num_jobs_per_dispatcher`
  calls, not after `num_jobs` calls. For non-negative counts the driver never makes more than
  `num_jobs` calls, so a run with dispatchers never runs out of slots.
- "Roughly the same amount of jobs" per dispatcher is not "within one".
  With three dispatchers and four jobs the split is 2, 2 and 0 (`Providing.UnevenSplitExample`).
- The Cassandra port comes from the first endpoint only; the other endpoints give only their hosts.
- Negative producer or consumer counts make `range` empty. `num_jobs` is still
  computed from the raw counts, so it can be negative or too small. With one cluster, one
  producer per cluster and `-1` consumers per producer, `num_jobs` is `1 + (-1) = 0`. No slot
  is prepared, and the first producer's `provide()` (line 299) raises `StopIteration`
  (`Driver.NegativeCountExhausts`).

## Model

| member | source | states |
|---|---|---|
| Text.Split | scale-tests/kafka_cassandra_streaming_test.py:175 | `split` always yields at least one piece, and no piece contains the separator |
| Text.SplitCount | scale-tests/kafka_cassandra_streaming_test.py:175 | `split` yields one more piece than the string has separators, which is why a line needs exactly two commas to unpack into three names |
| Text.JoinSplit | scale-tests/kafka_cassandra_streaming_test.py:175 | joining the pieces of a split with the same separator gives back the original string |
| Text.SplitJoin | scale-tests/kafka_cassandra_streaming_test.py:87 | splitting a join of separator-free pieces gives back the pieces |
| Text.SplitFirstPiece | scale-tests/kafka_cassandra_streaming_test.py:144 | the first piece of a split is the text before the first separator, or the whole string when there is none |
| Text.SplitAtFirst | scale-tests/kafka_cassandra_streaming_test.py:169 | the text before the first separator holds no separator, and the two parts rebuild the string around that separator |
| Text.SplitAtFirstOf | scale-tests/kafka_cassandra_streaming_test.py:169 | a line `k,v` whose key has no comma splits back into `k` and `v` |
| Text.IntToString | scale-tests/kafka_cassandra_streaming_test.py:89 | `str(i)` starts with `-` exactly when `i` is negative, and the rest is decimal digits |
| Text.ParseIntToString | scale-tests/kafka_cassandra_streaming_test.py:89 | reading `str(i)` back as a signed number gives `i`, for every integer |
| Text.ParseNatToString | scale-tests/kafka_cassandra_streaming_test.py:89 | reading `str(n)` back as a number gives `n` |
| Text.NatToStringInjective | scale-tests/kafka_cassandra_streaming_test.py:326 | distinct indices render as distinct strings |
| Text.DashNumberInjective | scale-tests/kafka_cassandra_streaming_test.py:301 | `'{}-{}'.format(a, n)` determines both `a` and `n` |
| Providing.Cap | scale-tests/kafka_cassandra_streaming_test.py:207-208 | `ceil(num_jobs / d)` is the least `cap` with `d * cap >= num_jobs` |
| Providing.Repeat | scale-tests/kafka_cassandra_streaming_test.py:210 | `make_repeater(n)(x)` yields `x` exactly `max(n, 0)` times |
| Providing.RepeatEachLength | scale-tests/kafka_cassandra_streaming_test.py:210-211 | there are `len(dispatchers) * max(cap, 0)` slots in all |
| Providing.Prepare | scale-tests/kafka_cassandra_streaming_test.py:206-211 | preparing fails with division by zero exactly when the dispatcher list is empty; otherwise there are at least `num_jobs` slots |
| Providing.BlockOf | scale-tests/kafka_cassandra_streaming_test.py:210-211 | dispatcher `i` owns the `i`-th block of `cap` consecutive slots |
| Providing.SlotAt | scale-tests/kafka_cassandra_streaming_test.py:210-211 | the `k`-th slot is dispatcher `k / cap`: dispatchers are filled one after the other, in list order |
| Providing.SlotCount | scale-tests/kafka_cassandra_streaming_test.py:210-211 | each dispatcher line gets `cap` slots for every time it is listed |
| Providing.RepeatCount | scale-tests/kafka_cassandra_streaming_test.py:210 | a repetition holds its element `max(n, 0)` times and no other value |
| Providing.UnevenSplitExample | scale-tests/kafka_cassandra_streaming_test.py:199-211 | with three dispatchers and four jobs the cap is 2, and the third dispatcher gets none of the four jobs |
| Providing.BlockStrategy.constructor | scale-tests/kafka_cassandra_streaming_test.py:180-183 | construction prepares the slots from the dispatchers and the job count, with nothing yet provided |
| Providing.BlockStrategy.Provide | scale-tests/kafka_cassandra_streaming_test.py:214-215 | `provide` hands out the slots in order, one per call; once they are all used it fails with `Exhausted` and keeps failing |
| Providing.DispatcherProvider.constructor | scale-tests/kafka_cassandra_streaming_test.py:228-229 | the facade owns a fresh block strategy built from the same dispatchers and job count |
| Providing.DispatcherProvider.Provide | scale-tests/kafka_cassandra_streaming_test.py:232-233 | the facade's `provide` behaves exactly like its strategy's |
| Providing.NewDispatcherProvider | scale-tests/kafka_cassandra_streaming_test.py:207 | building the provider raises division by zero exactly when there are no dispatchers; otherwise the strategy is prepared and nothing is provided yet |
| Dispatchers.ParseDispatcherSpec | scale-tests/kafka_cassandra_streaming_test.py:172-176 | a line parses exactly when it has two commas; the three comma-free names rebuild the line; otherwise the error gives the number of fields |
| Dispatchers.ParseDispatcher | scale-tests/kafka_cassandra_streaming_test.py:172-176 | a parsed dispatcher has three comma-free names; a failure reports a field count other than three |
| Dispatchers.ParseFormat | scale-tests/kafka_cassandra_streaming_test.py:172-176 | a dispatcher written as a line with comma-free names parses back to itself |
| Arguments.ProducerAppArgs | scale-tests/kafka_cassandra_streaming_test.py:86-93 | the producer's application arguments start with `--appName KafkaRandomFeeder` and have 10 entries, plus one for the must-fail switch |
| Arguments.ProducerConfig | scale-tests/kafka_cassandra_streaming_test.py:95-104 | the producer's spark-submit arguments start with the two resource caps, end with `COMMON_CONF` unchanged, and hold `--supervise` exactly when the stream is infinite (`number_of_words == 0`) |
| Arguments.ProducerSubmission | scale-tests/kafka_cassandra_streaming_test.py:86-112 | a producer is submitted to the dispatcher's service, with the executor role as its driver role, the producer's spark-submit arguments, and its application arguments joined with spaces |
| Arguments.ConsumerAppArgs | scale-tests/kafka_cassandra_streaming_test.py:130-142 | the consumer's application arguments start with `--appName KafkaWordCount` and have 14 entries, plus one for must-fail and one more when Cassandra is not written |
| Arguments.CassandraHosts | scale-tests/kafka_cassandra_streaming_test.py:144 | one host per endpoint: the text of that endpoint before its first `:` (all of it when there is none) |
| Arguments.CassandraPort | scale-tests/kafka_cassandra_streaming_test.py:145 | reading the port fails exactly when there is no endpoint or the first one has no `:`; the port holds no `:` |
| Arguments.PortAfterFirstHost | scale-tests/kafka_cassandra_streaming_test.py:144-145 | the port is the text of the first endpoint after its host and the first `:`, up to the next `:` or the end |
| Arguments.FirstEndpointPort | scale-tests/kafka_cassandra_streaming_test.py:145 | a first endpoint `h:p`, possibly followed by more `:`-fields, gives port `p` whatever the other endpoints hold |
| Arguments.ConsumerConfig | scale-tests/kafka_cassandra_streaming_test.py:144-154 | the consumer's spark-submit arguments fail exactly when the port cannot be read; otherwise they start with `--supervise` and end with `COMMON_CONF` |
| Arguments.ConsumerSubmission | scale-tests/kafka_cassandra_streaming_test.py:130-162 | a consumer is submitted to the dispatcher's service with the executor role as driver role, the consumer's spark-submit arguments and its application arguments joined with spaces, or fails exactly on an unreadable port |
| Arguments.ConfArgs | scale-tests/kafka_cassandra_streaming_test.py:50-58 | every setting becomes two arguments, `--conf` and `key=value` |
| Arguments.SuperviseIsNoSetting | scale-tests/kafka_cassandra_streaming_test.py:99-104 | no `--conf` block contains `--supervise`, so only the infinite-stream case adds it |
| Arguments.CommonConfStrings | scale-tests/kafka_cassandra_streaming_test.py:50-58 | `COMMON_CONF` is, string for string, the source's fourteen arguments |
| Arguments.ConfArgsAppend | scale-tests/kafka_cassandra_streaming_test.py:50-58 | the `--conf` arguments of two lists of settings are those of the first followed by those of the second |
| Arguments.ReadConfArgs | scale-tests/kafka_cassandra_streaming_test.py:50-58 | spark-submit reads a `--conf` block in front of other arguments as those settings added to what the rest sets |
| Arguments.ReadProducerConfig | scale-tests/kafka_cassandra_streaming_test.py:95-104 | spark-submit reads a producer's arguments as: supervised exactly when the stream is infinite, the two caps and then the `COMMON_CONF` settings, main class `KafkaRandomFeeder` |
| Arguments.ReadConsumerConfig | scale-tests/kafka_cassandra_streaming_test.py:144-154 | spark-submit reads a consumer's arguments as: always supervised, the two caps, the Cassandra hosts and port, then the `COMMON_CONF` settings, main class `KafkaWordCount` |
| Arguments.EndpointSplitting | scale-tests/kafka_cassandra_streaming_test.py:144-145 | endpoints `host:port` split back into the hosts and the shared port |
| Arguments.ReadPairArgs | scale-tests/kafka_cassandra_streaming_test.py:86-90 | flag/value pairs whose flags are not switches read back as those pairs |
| Arguments.ReadProducerAppArgs | scale-tests/kafka_cassandra_streaming_test.py:86-93 | the producer application reads its five options with their values, and the must-fail switch once exactly when asked for |
| Arguments.ReadConsumerAppArgs | scale-tests/kafka_cassandra_streaming_test.py:130-142 | the consumer application reads its seven options with their values, the must-fail switch once exactly when asked for, and the no-write switch once exactly when Cassandra is not written |
| Ledger.RenderAppend | scale-tests/kafka_cassandra_streaming_test.py:167-169 | appending one more entry adds exactly its line at the end of the file |
| Ledger.ReadRender | scale-tests/kafka_cassandra_streaming_test.py:167-169 | a file built by appending entries reads back as exactly those entries, in order |
| Ledger.LedgerFile.Append | scale-tests/kafka_cassandra_streaming_test.py:167-169 | `append_submission` adds `<dispatcher>,<id>` and a newline at the end of the file and changes nothing else |
| Topology.ConsumersMembers | scale-tests/kafka_cassandra_streaming_test.py:321 | the consumer loop runs exactly the consumers with index below the count |
| Topology.BlocksMembers | scale-tests/kafka_cassandra_streaming_test.py:298-346 | the producer loop of a cluster runs exactly the producers below the count, each with its consumers |
| Topology.ClusterMembers | scale-tests/kafka_cassandra_streaming_test.py:293-346 | the jobs of the first `n` clusters are exactly those within the bounds |
| Topology.AllJobsMembers | scale-tests/kafka_cassandra_streaming_test.py:293-346 | a run submits every job its counts call for and no other; negative counts give no jobs |
| Topology.AllJobsOrdered | scale-tests/kafka_cassandra_streaming_test.py:293-346 | jobs are submitted cluster by cluster and producer by producer, each producer before its consumers and consumers by index |
| Topology.AllJobsCount | scale-tests/kafka_cassandra_streaming_test.py:271-275 | with non-negative counts the run has `num_jobs = num_producers + num_consumers` jobs |
| Topology.TopicName | scale-tests/kafka_cassandra_streaming_test.py:301-302 | a topic is the normalised cluster name, a `-`, and the producer index in decimal |
| Topology.GroupId | scale-tests/kafka_cassandra_streaming_test.py:324-325 | a group id is the topic, a `-`, and the consumer index in decimal |
| Topology.TableName | scale-tests/kafka_cassandra_streaming_test.py:326 | a table is `table_` followed by the consumer index in decimal |
| Topology.TopicNamesDistinct | scale-tests/kafka_cassandra_streaming_test.py:301-302 | when normalised cluster names are distinct, two producers share a topic only if they are the same producer |
| Topology.GroupIdsDistinct | scale-tests/kafka_cassandra_streaming_test.py:324-325 | when normalised cluster names are distinct, two consumers share a group id exactly when they are the same consumer of the same producer of the same cluster |
| Driver.NumJobs | scale-tests/kafka_cassandra_streaming_test.py:271-275 | with non-negative counts `num_jobs` is the number of jobs the loops run |
| Driver.NegativeCountExhausts | scale-tests/kafka_cassandra_streaming_test.py:271-277 | with one producer and `-1` consumers per producer, `num_jobs` is 0 while one job runs, and the run ends with `StopIteration` |
| Driver.JobsKnown | scale-tests/kafka_cassandra_streaming_test.py:293 | every job of a run names a listed Kafka cluster |
| Driver.JobSubmission | scale-tests/kafka_cassandra_streaming_test.py:299-341 | building a job's arguments fails only for a consumer, and exactly when the Cassandra port cannot be read; it targets the provided dispatcher with its executor role |
| Driver.FailureAbsorbs | scale-tests/kafka_cassandra_streaming_test.py:293-346 | once an exception is raised, running further jobs changes nothing |
| Driver.RunJobsConsistent | scale-tests/kafka_cassandra_streaming_test.py:299-346 | the `i`-th submission uses slot `i`, the arguments built for the `i`-th job and that slot's dispatcher, and its line names that dispatcher and the `i`-th submission id; a run without exception submits every job once |
| Driver.RunJobsSucceeds | scale-tests/kafka_cassandra_streaming_test.py:299-346 | a run raises no exception exactly when every job has a slot whose line parses and whose job can be built |
| Driver.StepSucceeds | scale-tests/kafka_cassandra_streaming_test.py:299-319 | one more job raises nothing exactly when a slot is left and the job can be submitted from it |
| Driver.NoDispatchersFails | scale-tests/kafka_cassandra_streaming_test.py:277 | an empty dispatcher list ends the run with division by zero before any job |
| Driver.DriveRuns | scale-tests/kafka_cassandra_streaming_test.py:277 | with dispatchers, the run is the job loop over the prepared slots |
| Driver.DriveSucceeds | scale-tests/kafka_cassandra_streaming_test.py:271-346 | a run with dispatchers succeeds exactly when every job can be submitted from its slot, and then writes one line per job |
| Driver.WellFormedRunSucceeds | scale-tests/kafka_cassandra_streaming_test.py:271-346 | with non-negative counts, well-formed dispatcher lines and a readable Cassandra port whenever a consumer runs, the run succeeds and writes `num_jobs` lines |
| Driver.SlotIsDispatcher | scale-tests/kafka_cassandra_streaming_test.py:210-211 | every slot is one of the dispatcher lines |
| Driver.JobInRun | scale-tests/kafka_cassandra_streaming_test.py:321 | a consumer runs only when there are clusters, producers and consumers |
| Driver.EntryDispatcher | scale-tests/kafka_cassandra_streaming_test.py:299-346 | the `i`-th line of the submissions file names dispatcher number `i / max_num_jobs_per_dispatcher` |
| Driver.LedgerReadsBack | scale-tests/kafka_cassandra_streaming_test.py:316-319 | when no dispatcher line and no submission id holds a newline, the file the run writes reads back as its entries |
| Driver.ProducerNext | scale-tests/kafka_cassandra_streaming_test.py:298-346 | a producer and its consumers are the next jobs of the run after the producers before it |
| Driver.ConsumerNext | scale-tests/kafka_cassandra_streaming_test.py:321-346 | consumer `c` is the next job after the producer's first `c` consumers |
| Driver.SubmitJob | scale-tests/kafka_cassandra_streaming_test.py:299-319 | one pass of a loop body (provide, parse, build, submit, append) has the effect of one step of the run, whether or not it raises: same exception, cursor, submissions and file text |
| Driver.SubmitNext | scale-tests/kafka_cassandra_streaming_test.py:299-319 | after one more job the loops' state matches the run one job further; on an exception the loops stop where the run stops, with the run's exception, cursor, submissions and file text |
| Driver.RunLoops | scale-tests/kafka_cassandra_streaming_test.py:293-346 | the three nested loops end with the run's exception (if any), the run's submissions and cursor, and exactly the lines of the jobs submitted before any exception appended to the file |
| Driver.RunCluster | scale-tests/kafka_cassandra_streaming_test.py:293-346 | the producer loop of one cluster moves the state from the jobs of the clusters before it to those of this cluster too, or stops where the run stops |
| Driver.RunProducer | scale-tests/kafka_cassandra_streaming_test.py:299-346 | one producer and its consumer loop move the state by exactly that producer's block, or stop where the run stops |
| Driver.RunConsumers | scale-tests/kafka_cassandra_streaming_test.py:321-346 | the consumer loop moves the state by exactly the producer's consumers, or stops where the run stops |
| Driver.RunConsumer | scale-tests/kafka_cassandra_streaming_test.py:322-346 | one consumer moves the state by exactly that consumer, or stops where the run stops |
| Driver.RunFanout | scale-tests/kafka_cassandra_streaming_test.py:271-346 | the fan-out ends with the exception the run predicts (if any), the run's submissions, and exactly the lines of the jobs submitted before any exception appended to the submissions file |

## Left out

- Reading the dispatcher file (`splitlines`), the infrastructure JSON and the command line (lines 241-269) is left out. The model starts from the dispatcher lines, the Kafka clusters and the options as values, with `int(...)` already applied.
- `_install_package_cli` and `_service_endpoint_dns` (lines 61-74, 286-291) call the DC/OS CLI. The broker endpoints are a parameter (`Env.brokerDns`), and so are the Cassandra endpoints (`Env.cassandraDns`).
- `spark_utils.submit_job` is a parameter (`Env.submit`) that returns the id of the n-th submission. The model records what it is called with; a failing submission call, and the JAR URL (`app_url`, line 252), are not modelled.
- The application arguments are joined with spaces into `Arguments.Submission.appArgs`, as the source does. How the application splits that string back into arguments is not modelled; the read-back lemmas work on the list before the join.
- `normalize_string` is a parameter. `make_repeater` and `mapcat` live in `scale_tests_utils`, which is not part of this model; they are modelled by their documented meaning (`Providing.Repeat`, `Providing.RepeatEach`), with a non-positive count yielding nothing.
- `report()` and all logging (lines 194-195, 218-222, 236-237, 279-284) are left out. They only write to the log; the report at line 222 prints the module-level `dispatchers`.
- `avg_num_jobs_per_dispatcher` is a float. The model computes the ceiling exactly with integers (`Providing.Cap`), so float rounding for huge job counts is not captured.
- The abstract `ProvidingStrategy` (lines 179-195) raises `NotImplementedError`. Only the block strategy, the one the driver uses, is modelled.
- `Providing.BlockStrategy.Provide`: the slot generator is modelled as a prepared sequence and a cursor, not as a lazy iterator.
- The submissions file is opened in append mode for every line. The model keeps the file's text in `Ledger.LedgerFile`; file-system errors are not modelled.
- `Driver.Step` leaves the state unchanged for a job naming a cluster outside the list. That cannot happen in a run (`Driver.JobsKnown`); that guard only keeps `Step` total.
- The driver loops take the argument builder as a parameter (`Driver.Builder`); `Driver.RunFanout` passes the source's builder.
