/** The argument vectors of the two kinds of submissions: the producer
    (`KafkaRandomFeeder`, which publishes random words into a topic) and the
    consumer (`KafkaWordCount`, which counts them and may write the counts
    to Cassandra). Each submission carries application arguments (flag/value
    pairs read by the job) and spark-submit arguments (`--conf key=value`,
    `--class`, `--supervise`) followed by the fixed common configuration. */
module Arguments {
  import opened Results
  import opened Text

  const ProducerClassName: string := "KafkaRandomFeeder"
  const ConsumerClassName: string := "KafkaWordCount"
  const MustFailFlag: string := "--mustFailDueToInvalidArgument"
  const ShouldNotWriteFlag: string := "--shouldNotWriteToCassandra"
  const SuperviseFlag: string := "--supervise"

  const ExecutorDockerImage: string :=
    "mesosphere/spark-dev:7081f3483a0d904992994edbed07abbc5110f003-815904ac6c6604ac82368a44d69f8a7423bcb8dc"

  /** The settings of `COMMON_CONF`, in order. */
  const CommonConfPairs: seq<(string, string)> := [
    ("spark.mesos.containerizer", "mesos"),
    ("spark.mesos.driver.failoverTimeout", "30"),
    ("spark.port.maxRetries", "32"),
    ("spark.mesos.executor.docker.image", ExecutorDockerImage),
    ("spark.mesos.executor.home", "/opt/spark/dist"),
    ("spark.scheduler.maxRegisteredResourcesWaitingTime", "2400s"),
    ("spark.scheduler.minRegisteredResourcesRatio", "1.0")
  ]

  /** `COMMON_CONF`, appended to every submission: `--conf key=value` for
      each of those settings, the very strings of the source's list. */
  const CommonConf: seq<string> := ConfArgs(CommonConfPairs)

  /** `COMMON_CONF` is, string for string, the source's list (the image
      setting carries the tag held in `ExecutorDockerImage`). */
  lemma CommonConfStrings()
    ensures CommonConf == [
      "--conf", "spark.mesos.containerizer=mesos",
      "--conf", "spark.mesos.driver.failoverTimeout=30",
      "--conf", "spark.port.maxRetries=32",
      "--conf", "spark.mesos.executor.docker.image=" + ExecutorDockerImage,
      "--conf", "spark.mesos.executor.home=/opt/spark/dist",
      "--conf", "spark.scheduler.maxRegisteredResourcesWaitingTime=2400s",
      "--conf", "spark.scheduler.minRegisteredResourcesRatio=1.0"]
  {
    var p := CommonConfPairs;
    assert p == p[..4] + p[4..];
    CommonConfHead();
    CommonConfTail();
    ConfArgsAppend(p[..4], p[4..]);
  }

  /** The first four settings as `--conf` arguments. */
  lemma CommonConfHead()
    ensures ConfArgs(CommonConfPairs[..4]) == [
      "--conf", "spark.mesos.containerizer=mesos",
      "--conf", "spark.mesos.driver.failoverTimeout=30",
      "--conf", "spark.port.maxRetries=32",
      "--conf", "spark.mesos.executor.docker.image=" + ExecutorDockerImage]
  {
    var p := CommonConfPairs[..4];
    ConfArgsOfFour(p);
    assert p[0].0 + "=" + p[0].1 == "spark.mesos.containerizer=mesos";
    assert p[1].0 + "=" + p[1].1 == "spark.mesos.driver.failoverTimeout=30";
    assert p[2].0 + "=" + p[2].1 == "spark.port.maxRetries=32";
    assert p[3].0 + "=" == "spark.mesos.executor.docker.image=";
  }

  /** The last three settings as `--conf` arguments. */
  lemma CommonConfTail()
    ensures ConfArgs(CommonConfPairs[4..]) == [
      "--conf", "spark.mesos.executor.home=/opt/spark/dist",
      "--conf", "spark.scheduler.maxRegisteredResourcesWaitingTime=2400s",
      "--conf", "spark.scheduler.minRegisteredResourcesRatio=1.0"]
  {
    var p := CommonConfPairs[4..];
    ConfArgsOfThree(p);
    assert p[0].0 + "=" + p[0].1 == "spark.mesos.executor.home=/opt/spark/dist";
    assert p[1].0 + "=" + p[1].1 == "spark.scheduler.maxRegisteredResourcesWaitingTime=2400s";
    assert p[2].0 + "=" + p[2].1 == "spark.scheduler.minRegisteredResourcesRatio=1.0";
  }

  lemma ConfArgsOfThree(p: seq<(string, string)>)
    requires |p| == 3
    ensures ConfArgs(p) == ["--conf", p[0].0 + "=" + p[0].1, "--conf", p[1].0 + "=" + p[1].1,
                            "--conf", p[2].0 + "=" + p[2].1]
  {
    assert ConfArgs(p[2..]) == ["--conf", p[2].0 + "=" + p[2].1] + ConfArgs(p[3..]);
    assert ConfArgs(p[1..]) == ["--conf", p[1].0 + "=" + p[1].1] + ConfArgs(p[2..]);
  }

  /** `--conf` arguments for two lists of settings, one after the other. */
  lemma {:induction false} ConfArgsAppend(a: seq<(string, string)>, b: seq<(string, string)>)
    ensures ConfArgs(a + b) == ConfArgs(a) + ConfArgs(b)
    decreases |a|
  {
    if a == [] {
      assert a + b == b;
    } else {
      var head := ["--conf", a[0].0 + "=" + a[0].1];
      assert (a + b)[0] == a[0] && (a + b)[1..] == a[1..] + b;
      assert ConfArgs(a + b) == head + ConfArgs(a[1..] + b);
      assert ConfArgs(a) == head + ConfArgs(a[1..]);
      ConfArgsAppend(a[1..], b);
      AppendAssoc(head, ConfArgs(a[1..]), ConfArgs(b));
    }
  }

  /** What a submission hands to `spark_utils.submit_job`: the application
      arguments joined with spaces, the dispatcher's service name, the
      spark-submit arguments, and the role the driver runs under (the
      dispatcher's executor role). */
  datatype Submission = Submission(appArgs: string, serviceName: string, args: seq<string>, driverRole: string)

  /** `cassandra_native_client_dns[0].split(':')[1]` raises `IndexError`
      when the endpoint list is empty or its first entry has no `:`. */
  datatype BuildError = CassandraPortMissing

  // ---------------------------------------------------------------------
  // Producer

  /** Application arguments of `_submit_producer`. */
  function ProducerAppArgs(kafkaBrokerDns: seq<string>, kafkaTopics: string, numberOfWords: int,
                           wordsPerSecond: int, mustFail: bool): (args: seq<string>)
    ensures |args| == 10 + (if mustFail then 1 else 0)
    ensures args[..2] == ["--appName", ProducerClassName]
  {
    var appArgs := ["--appName",        ProducerClassName,
                    "--brokers",        Join(",", kafkaBrokerDns),
                    "--topics",         kafkaTopics,
                    "--numberOfWords",  IntToString(numberOfWords),
                    "--wordsPerSecond", IntToString(wordsPerSecond)];
    if mustFail then appArgs + [MustFailFlag] else appArgs
  }

  /** spark-submit arguments of `_submit_producer`: the two resource caps,
      the main class, `--supervise` exactly when the word stream is
      infinite (`number_of_words == 0`), then the common block unchanged. */
  function ProducerConfig(sparkCoresMax: int, sparkExecutorCores: int, numberOfWords: int): (args: seq<string>)
    ensures |args| >= 6 + |CommonConf|
    ensures args[..6] == ["--conf",  "spark.cores.max=" + IntToString(sparkCoresMax),
                          "--conf",  "spark.executor.cores=" + IntToString(sparkExecutorCores),
                          "--class", ProducerClassName]
    ensures args[|args| - |CommonConf|..] == CommonConf
    ensures SuperviseFlag in args <==> numberOfWords == 0
  {
    var appConfig := ["--conf",  "spark.cores.max=" + IntToString(sparkCoresMax),
                      "--conf",  "spark.executor.cores=" + IntToString(sparkExecutorCores),
                      "--class", ProducerClassName];
    var appConfig' := if numberOfWords == 0 then appConfig + [SuperviseFlag] else appConfig;
    SuperviseIsNoSetting(CommonConfPairs);
    assert SuperviseFlag !in appConfig by {
      assert ("spark.cores.max=" + IntToString(sparkCoresMax))[0] == 's';
      assert ("spark.executor.cores=" + IntToString(sparkExecutorCores))[0] == 's';
    }
    appConfig' + CommonConf
  }

  /** The arguments `_submit_producer` passes to the submission call. */
  function ProducerSubmission(kafkaBrokerDns: seq<string>, serviceName: string, executorRole: string,
                              kafkaTopics: string, numberOfWords: int, wordsPerSecond: int,
                              sparkCoresMax: int, sparkExecutorCores: int, mustFail: bool): (s: Submission)
    ensures s.serviceName == serviceName && s.driverRole == executorRole
    ensures s.args == ProducerConfig(sparkCoresMax, sparkExecutorCores, numberOfWords)
    ensures s.appArgs == Join(" ", ProducerAppArgs(kafkaBrokerDns, kafkaTopics, numberOfWords, wordsPerSecond, mustFail))
  {
    var appArgs := ProducerAppArgs(kafkaBrokerDns, kafkaTopics, numberOfWords, wordsPerSecond, mustFail);
    Submission(Join(" ", appArgs), serviceName, ProducerConfig(sparkCoresMax, sparkExecutorCores, numberOfWords),
               executorRole)
  }

  // ---------------------------------------------------------------------
  // Consumer

  /** Application arguments of `_submit_consumer`; note the inverted flag:
      `--shouldNotWriteToCassandra` is added when writing is off. */
  function ConsumerAppArgs(kafkaBrokerDns: seq<string>, kafkaTopics: string, kafkaGroupId: string,
                           writeToCassandra: bool, batchSizeSeconds: int, cassandraKeyspace: string,
                           cassandraTable: string, mustFail: bool): (args: seq<string>)
    ensures |args| == 14 + (if mustFail then 1 else 0) + (if writeToCassandra then 0 else 1)
    ensures args[..2] == ["--appName", ConsumerClassName]
  {
    var appArgs := ["--appName",           ConsumerClassName,
                    "--brokers",           Join(",", kafkaBrokerDns),
                    "--topics",            kafkaTopics,
                    "--groupId",           kafkaGroupId,
                    "--batchSizeSeconds",  IntToString(batchSizeSeconds),
                    "--cassandraKeyspace", cassandraKeyspace,
                    "--cassandraTable",    cassandraTable];
    var withFail := if mustFail then appArgs + [MustFailFlag] else appArgs;
    if !writeToCassandra then withFail + [ShouldNotWriteFlag] else withFail
  }

  /** `x.split(':')[0]` for every Cassandra endpoint: the host part, the
      text of the endpoint before its first `:`. */
  function CassandraHosts(cassandraNativeClientDns: seq<string>): (hosts: seq<string>)
    ensures |hosts| == |cassandraNativeClientDns|
    ensures forall i :: 0 <= i < |hosts| ==> ':' !in hosts[i]
    ensures forall i :: 0 <= i < |hosts| ==>
      hosts[i] <= cassandraNativeClientDns[i] &&
      (|hosts[i]| == |cassandraNativeClientDns[i]| || cassandraNativeClientDns[i][|hosts[i]|] == ':')
  {
    FirstPieces(cassandraNativeClientDns, ':');
    seq(|cassandraNativeClientDns|, i requires 0 <= i < |cassandraNativeClientDns| =>
      Split(cassandraNativeClientDns[i], ':')[0])
  }

  /** `cassandra_native_client_dns[0].split(':')[1]`: the second `:`-field
      of the first endpoint; the other endpoints' ports are not looked at. */
  function CassandraPort(cassandraNativeClientDns: seq<string>): (r: Result<string, BuildError>)
    ensures r.Err? <==> |cassandraNativeClientDns| == 0 || ':' !in cassandraNativeClientDns[0]
    ensures r.Ok? ==> ':' !in r.value
  {
    if |cassandraNativeClientDns| == 0 then Err(CassandraPortMissing)
    else
      var fields := Split(cassandraNativeClientDns[0], ':');
      SplitCount(cassandraNativeClientDns[0], ':');
      if |fields| < 2 then Err(CassandraPortMissing) else Ok(fields[1])
  }

  /** The first piece of each string is the text before its first separator. */
  lemma FirstPieces(ss: seq<string>, sep: char)
    ensures forall i :: 0 <= i < |ss| ==>
      Split(ss[i], sep)[0] <= ss[i] &&
      (|Split(ss[i], sep)[0]| == |ss[i]| || ss[i][|Split(ss[i], sep)[0]|] == sep)
  {
    forall i | 0 <= i < |ss|
      ensures Split(ss[i], sep)[0] <= ss[i] &&
              (|Split(ss[i], sep)[0]| == |ss[i]| || ss[i][|Split(ss[i], sep)[0]|] == sep)
    {
      SplitFirstPiece(ss[i], sep);
    }
  }

  /** The port is the text between the first and the second `:` of the
      first endpoint (or its end): it follows the first host and a `:`. */
  lemma PortAfterFirstHost(cassandraNativeClientDns: seq<string>)
    requires CassandraPort(cassandraNativeClientDns).Ok?
    ensures |cassandraNativeClientDns| > 0
    ensures var first := cassandraNativeClientDns[0];
      var h := CassandraHosts(cassandraNativeClientDns)[0];
      var p := CassandraPort(cassandraNativeClientDns).value;
      h + ":" + p <= first && (|h| + 1 + |p| == |first| || first[|h| + 1 + |p|] == ':')
  {
    var first := cassandraNativeClientDns[0];
    var h := Split(first, ':')[0];
    SplitFirstPiece(first, ':');
    assert |h| < |first| && first[|h|] == ':' by {
      if |h| == |first| {
        assert false;
      }
    }
    var t := first[|h| + 1..];
    assert first == h + [':'] + t;
    SplitAround(h, ':', t);
    SplitWithoutSep(h, ':');
    assert Split(first, ':') == [h] + Split(t, ':');
    SplitFirstPiece(t, ':');
  }

  /** Only the first endpoint decides the port: an endpoint `h:p`, possibly
      followed by further `:`-fields, gives port `p` whatever the other
      endpoints hold. */
  lemma FirstEndpointPort(cassandraNativeClientDns: seq<string>, h: string, p: string, rest: string)
    requires |cassandraNativeClientDns| > 0 && cassandraNativeClientDns[0] == h + ":" + p + rest
    requires ':' !in h && ':' !in p && (rest == [] || rest[0] == ':')
    ensures CassandraPort(cassandraNativeClientDns) == Ok(p)
  {
    var first := cassandraNativeClientDns[0];
    assert first == h + [':'] + (p + rest);
    SplitAround(h, ':', p + rest);
    SplitWithoutSep(h, ':');
    if rest == [] {
      assert p + rest == p;
      SplitWithoutSep(p, ':');
    } else {
      assert p + rest == p + [':'] + rest[1..];
      SplitAround(p, ':', rest[1..]);
      SplitWithoutSep(p, ':');
    }
    assert Split(first, ':')[1] == p;
  }

  /** spark-submit arguments of `_submit_consumer`: always supervised, the
      two caps, the Cassandra hosts and port, the main class, then the
      common block; fails exactly when the port cannot be read. */
  function ConsumerConfig(sparkCoresMax: int, sparkExecutorCores: int,
                          cassandraNativeClientDns: seq<string>): (r: Result<seq<string>, BuildError>)
    ensures r.Err? <==> |cassandraNativeClientDns| == 0 || ':' !in cassandraNativeClientDns[0]
    ensures r.Ok? ==> |r.value| >= 11 + |CommonConf| && r.value[0] == SuperviseFlag
    ensures r.Ok? ==> r.value[|r.value| - |CommonConf|..] == CommonConf
  {
    match CassandraPort(cassandraNativeClientDns)
    case Err(e) => Err(e)
    case Ok(cassandraPort) =>
      var appConfig := [SuperviseFlag,
                        "--conf",  "spark.cores.max=" + IntToString(sparkCoresMax),
                        "--conf",  "spark.executor.cores=" + IntToString(sparkExecutorCores),
                        "--conf",  "spark.cassandra.connection.host=" + Join(",", CassandraHosts(cassandraNativeClientDns)),
                        "--conf",  "spark.cassandra.connection.port=" + cassandraPort,
                        "--class", ConsumerClassName];
      Ok(appConfig + CommonConf)
  }

  /** The arguments `_submit_consumer` passes to the submission call, or the
      error raised before the call is made. */
  function ConsumerSubmission(kafkaBrokerDns: seq<string>, cassandraNativeClientDns: seq<string>,
                              serviceName: string, executorRole: string, kafkaTopics: string,
                              kafkaGroupId: string, writeToCassandra: bool, batchSizeSeconds: int,
                              cassandraKeyspace: string, cassandraTable: string, sparkCoresMax: int,
                              sparkExecutorCores: int, mustFail: bool): (r: Result<Submission, BuildError>)
    ensures r.Err? <==> |cassandraNativeClientDns| == 0 || ':' !in cassandraNativeClientDns[0]
    ensures r.Ok? ==> r.value.serviceName == serviceName && r.value.driverRole == executorRole
    ensures r.Ok? ==> Ok(r.value.args) == ConsumerConfig(sparkCoresMax, sparkExecutorCores, cassandraNativeClientDns)
    ensures r.Ok? ==> r.value.appArgs == Join(" ", ConsumerAppArgs(kafkaBrokerDns, kafkaTopics, kafkaGroupId,
      writeToCassandra, batchSizeSeconds, cassandraKeyspace, cassandraTable, mustFail))
  {
    var appArgs := ConsumerAppArgs(kafkaBrokerDns, kafkaTopics, kafkaGroupId, writeToCassandra,
                                   batchSizeSeconds, cassandraKeyspace, cassandraTable, mustFail);
    match ConsumerConfig(sparkCoresMax, sparkExecutorCores, cassandraNativeClientDns)
    case Err(e) => Err(e)
    case Ok(args) => Ok(Submission(Join(" ", appArgs), serviceName, args, executorRole))
  }

  // ---------------------------------------------------------------------
  // Reading the vectors back

  /** The switches of the two applications: flags that take no value. */
  predicate IsAppSwitch(flag: string)
  {
    flag == MustFailFlag || flag == ShouldNotWriteFlag
  }

  /** The options an application argument vector denotes: a switch stands
      alone, any other flag takes the next argument as its value. */
  function ReadAppArgs(args: seq<string>): seq<(string, Option<string>)>
    decreases |args|
  {
    if args == [] then []
    else if IsAppSwitch(args[0]) || |args| == 1 then [(args[0], None)] + ReadAppArgs(args[1..])
    else [(args[0], Some(args[1]))] + ReadAppArgs(args[2..])
  }

  /** How many times the switch `flag` is given. */
  function SwitchCount(opts: seq<(string, Option<string>)>, flag: string): nat
  {
    multiset(opts)[(flag, None)]
  }

  /** The options spark-submit reads from a submission's arguments:
      `--supervise`, the `--conf key=value` settings in order, and the main
      class (the last `--class` wins). Anything else is unreadable. */
  datatype SubmitOptions = SubmitOptions(supervise: bool, conf: seq<(string, string)>, mainClass: Option<string>)

  function ReadSubmitArgs(args: seq<string>): Option<SubmitOptions>
    decreases |args|
  {
    if args == [] then Some(SubmitOptions(false, [], None))
    else if args[0] == SuperviseFlag then
      match ReadSubmitArgs(args[1..])
      case None => None
      case Some(o) => Some(o.(supervise := true))
    else if |args| >= 2 && args[0] == "--conf" && '=' in args[1] then
      match ReadSubmitArgs(args[2..])
      case None => None
      case Some(o) => Some(o.(conf := [SplitAtFirst(args[1], '=')] + o.conf))
    else if |args| >= 2 && args[0] == "--class" then
      match ReadSubmitArgs(args[2..])
      case None => None
      case Some(o) => Some(o.(mainClass := if o.mainClass.Some? then o.mainClass else Some(args[1])))
    else None
  }

  /** `--conf` arguments for a list of settings: two per setting. */
  function ConfArgs(pairs: seq<(string, string)>): (args: seq<string>)
    ensures |args| == 2 * |pairs|
    decreases |pairs|
  {
    if pairs == [] then [] else ["--conf", pairs[0].0 + "=" + pairs[0].1] + ConfArgs(pairs[1..])
  }

  /** `--supervise` is none of the `--conf` arguments: each of those is
      `--conf` itself or holds an `=`. */
  lemma {:induction false} SuperviseIsNoSetting(pairs: seq<(string, string)>)
    ensures SuperviseFlag !in ConfArgs(pairs)
    decreases |pairs|
  {
    if pairs != [] {
      var setting := pairs[0].0 + "=" + pairs[0].1;
      assert setting[|pairs[0].0|] == '=';
      assert '=' !in SuperviseFlag && SuperviseFlag != "--conf";
      SuperviseIsNoSetting(pairs[1..]);
    }
  }

  /** `--conf` settings in front of other arguments add to what is read
      from those arguments, in order. */
  function WithConf(r: Option<SubmitOptions>, pairs: seq<(string, string)>): Option<SubmitOptions>
  {
    match r
    case None => None
    case Some(o) => Some(o.(conf := pairs + o.conf))
  }

  predicate KeysWithoutEquals(pairs: seq<(string, string)>)
  {
    forall i :: 0 <= i < |pairs| ==> '=' !in pairs[i].0
  }

  lemma {:induction false} ReadConfArgs(pairs: seq<(string, string)>, rest: seq<string>)
    requires KeysWithoutEquals(pairs)
    ensures ReadSubmitArgs(ConfArgs(pairs) + rest) == WithConf(ReadSubmitArgs(rest), pairs)
    decreases |pairs|
  {
    if pairs == [] {
      assert ConfArgs(pairs) + rest == rest;
      var r := ReadSubmitArgs(rest);
      if r.Some? {
        assert [] + r.value.conf == r.value.conf;
        assert r.value.(conf := r.value.conf) == r.value;
      }
    } else {
      var (k, v) := pairs[0];
      var tail := ConfArgs(pairs[1..]) + rest;
      assert ConfArgs(pairs) + rest == ["--conf", k + "=" + v] + tail;
      ReadConfStep(k, v, tail);
      ReadConfArgs(pairs[1..], rest);
      WithConfNested(ReadSubmitArgs(rest), [(k, v)], pairs[1..]);
      assert pairs == [(k, v)] + pairs[1..];
    }
  }

  /** One `--conf key=value` in front. */
  lemma ReadConfStep(k: string, v: string, rest: seq<string>)
    requires '=' !in k
    ensures ReadSubmitArgs(["--conf", k + "=" + v] + rest) == WithConf(ReadSubmitArgs(rest), [(k, v)])
  {
    var args := ["--conf", k + "=" + v] + rest;
    assert args[2..] == rest;
    assert k + "=" + v == k + ['='] + v;
    assert args[1][|k|] == '=';
    SplitAtFirstOf(k, v, '=');
  }

  lemma WithConfNested(r: Option<SubmitOptions>, a: seq<(string, string)>, b: seq<(string, string)>)
    ensures WithConf(WithConf(r, b), a) == WithConf(r, a + b)
  {
    if r.Some? {
      assert a + (b + r.value.conf) == (a + b) + r.value.conf;
    }
  }

  /** `--supervise` when asked for, as `_submit_producer` adds it. */
  function Supervised(supervise: bool): seq<string>
  {
    if supervise then [SuperviseFlag] else []
  }

  /** The tail every submission ends with: the main class, an optional
      `--supervise`, then `--conf` settings. */
  lemma ReadClassAndSettings(cls: string, supervise: bool, pairs: seq<(string, string)>)
    requires KeysWithoutEquals(pairs)
    ensures ReadSubmitArgs(["--class", cls] + (Supervised(supervise) + ConfArgs(pairs))) ==
      Some(SubmitOptions(supervise, pairs, Some(cls)))
  {
    var conf := ConfArgs(pairs);
    ReadConfArgs(pairs, []);
    assert conf + [] == conf;
    var settings := SubmitOptions(false, pairs, None);
    assert ReadSubmitArgs(conf) == Some(settings) by {
      assert pairs + [] == pairs;
    }
    var tail := Supervised(supervise) + conf;
    if supervise {
      assert tail == [SuperviseFlag] + conf;
      ReadSuperviseFirst(conf, settings);
    } else {
      assert tail == conf;
    }
    ReadClassFirst(cls, tail, SubmitOptions(supervise, pairs, None));
  }

  /** `--supervise` in front sets the flag. */
  lemma ReadSuperviseFirst(rest: seq<string>, o: SubmitOptions)
    requires ReadSubmitArgs(rest) == Some(o)
    ensures ReadSubmitArgs([SuperviseFlag] + rest) == Some(o.(supervise := true))
  {
    assert ([SuperviseFlag] + rest)[1..] == rest;
  }

  /** `--class` in front names the main class when nothing after it does. */
  lemma ReadClassFirst(cls: string, rest: seq<string>, o: SubmitOptions)
    requires ReadSubmitArgs(rest) == Some(o) && o.mainClass == None
    ensures ReadSubmitArgs(["--class", cls] + rest) == Some(o.(mainClass := Some(cls)))
  {
    var args := ["--class", cls] + rest;
    assert args[0] == "--class" && args[1] == cls && args[2..] == rest;
    assert "--class" != SuperviseFlag && "--class" != "--conf";
  }

  /** spark-submit reads a producer's arguments as: supervised exactly when
      the word stream is infinite, the two caps followed by the common
      settings, and `KafkaRandomFeeder` as the main class. */
  lemma ReadProducerConfig(sparkCoresMax: int, sparkExecutorCores: int, numberOfWords: int)
    ensures ReadSubmitArgs(ProducerConfig(sparkCoresMax, sparkExecutorCores, numberOfWords)) ==
      Some(SubmitOptions(numberOfWords == 0,
                         [("spark.cores.max", IntToString(sparkCoresMax)),
                          ("spark.executor.cores", IntToString(sparkExecutorCores))] + CommonConfPairs,
                         Some(ProducerClassName)))
  {
    var caps := [("spark.cores.max", IntToString(sparkCoresMax)),
                 ("spark.executor.cores", IntToString(sparkExecutorCores))];
    var tail := ["--class", ProducerClassName] + (Supervised(numberOfWords == 0) + CommonConf);
    ProducerConfigForm(sparkCoresMax, sparkExecutorCores, numberOfWords);
    CommonConfKeys();
    ReadConfArgs(caps, tail);
    ReadClassAndSettings(ProducerClassName, numberOfWords == 0, CommonConfPairs);
  }

  lemma ProducerConfigForm(sparkCoresMax: int, sparkExecutorCores: int, numberOfWords: int)
    ensures ProducerConfig(sparkCoresMax, sparkExecutorCores, numberOfWords) ==
      ConfArgs([("spark.cores.max", IntToString(sparkCoresMax)),
                ("spark.executor.cores", IntToString(sparkExecutorCores))]) +
      (["--class", ProducerClassName] + (Supervised(numberOfWords == 0) + CommonConf))
    ensures KeysWithoutEquals([("spark.cores.max", IntToString(sparkCoresMax)),
                               ("spark.executor.cores", IntToString(sparkExecutorCores))])
  {
    var caps := [("spark.cores.max", IntToString(sparkCoresMax)),
                 ("spark.executor.cores", IntToString(sparkExecutorCores))];
    CapKeys();
    assert caps[1..][1..] == [];
    assert ConfArgs(caps[1..]) == ["--conf", caps[1].0 + "=" + caps[1].1] + ConfArgs(caps[1..][1..]);
    assert ConfArgs(caps) == ["--conf", caps[0].0 + "=" + caps[0].1] + ConfArgs(caps[1..]);
  }

  /** The keys of the per-job settings hold no `=`, and `key=` is how the
      source writes each of them. */
  lemma CapKeys()
    ensures '=' !in "spark.cores.max" && "spark.cores.max" + "=" == "spark.cores.max="
    ensures '=' !in "spark.executor.cores" && "spark.executor.cores" + "=" == "spark.executor.cores="
    ensures '=' !in "spark.cassandra.connection.host" &&
            "spark.cassandra.connection.host" + "=" == "spark.cassandra.connection.host="
    ensures '=' !in "spark.cassandra.connection.port" &&
            "spark.cassandra.connection.port" + "=" == "spark.cassandra.connection.port="
  {
  }

  lemma CommonConfKeys()
    ensures KeysWithoutEquals(CommonConfPairs)
  {
    var p := CommonConfPairs;
    CommonConfKeysFirst();
    CommonConfKeysLast();
    assert p == p[..4] + p[4..];
  }

  lemma CommonConfKeysFirst()
    ensures KeysWithoutEquals(CommonConfPairs[..4])
  {
    var p := CommonConfPairs;
    assert '=' !in p[0].0;
    assert '=' !in p[1].0;
    assert '=' !in p[2].0;
    assert '=' !in p[3].0;
  }

  lemma CommonConfKeysLast()
    ensures KeysWithoutEquals(CommonConfPairs[4..])
  {
    var p := CommonConfPairs;
    assert '=' !in p[4].0;
    assert '=' !in p[5].0;
    assert '=' !in p[6].0;
  }

  /** spark-submit reads a consumer's arguments as: always supervised, the
      two caps, the Cassandra hosts (the text before the first `:` of every
      endpoint, comma-joined) and the port (of the first endpoint only),
      then the common settings, with `KafkaWordCount` as the main class. */
  lemma ReadConsumerConfig(sparkCoresMax: int, sparkExecutorCores: int, cassandraNativeClientDns: seq<string>)
    ensures var r := ConsumerConfig(sparkCoresMax, sparkExecutorCores, cassandraNativeClientDns);
      r.Ok? ==>
        ReadSubmitArgs(r.value) == Some(SubmitOptions(true,
                           [("spark.cores.max", IntToString(sparkCoresMax)),
                            ("spark.executor.cores", IntToString(sparkExecutorCores)),
                            ("spark.cassandra.connection.host", Join(",", CassandraHosts(cassandraNativeClientDns))),
                            ("spark.cassandra.connection.port", CassandraPort(cassandraNativeClientDns).value)]
                           + CommonConfPairs,
                           Some(ConsumerClassName)))
  {
    var r := ConsumerConfig(sparkCoresMax, sparkExecutorCores, cassandraNativeClientDns);
    if r.Ok? {
      var caps := [("spark.cores.max", IntToString(sparkCoresMax)),
                   ("spark.executor.cores", IntToString(sparkExecutorCores)),
                   ("spark.cassandra.connection.host", Join(",", CassandraHosts(cassandraNativeClientDns))),
                   ("spark.cassandra.connection.port", CassandraPort(cassandraNativeClientDns).value)];
      var tail := ["--class", ConsumerClassName] + (Supervised(false) + CommonConf);
      ConsumerConfigForm(caps, r.value, CommonConf);
      CommonConfKeys();
      ReadConfArgs(caps, tail);
      ReadClassAndSettings(ConsumerClassName, false, CommonConfPairs);
      assert r.value[1..] == ConfArgs(caps) + tail;
    }
  }

  lemma ConsumerConfigForm(caps: seq<(string, string)>, args: seq<string>, common: seq<string>)
    requires |caps| == 4
    requires caps[0].0 == "spark.cores.max" && caps[1].0 == "spark.executor.cores"
    requires caps[2].0 == "spark.cassandra.connection.host" && caps[3].0 == "spark.cassandra.connection.port"
    requires args == [SuperviseFlag,
                      "--conf",  "spark.cores.max=" + caps[0].1,
                      "--conf",  "spark.executor.cores=" + caps[1].1,
                      "--conf",  "spark.cassandra.connection.host=" + caps[2].1,
                      "--conf",  "spark.cassandra.connection.port=" + caps[3].1,
                      "--class", ConsumerClassName] + common
    ensures KeysWithoutEquals(caps)
    ensures args == [SuperviseFlag] + ConfArgs(caps) + (["--class", ConsumerClassName] + (Supervised(false) + common))
  {
    CapKeys();
    ConfArgsOfFour(caps);
    assert Supervised(false) == [];
  }

  lemma ConfArgsOfFour(p: seq<(string, string)>)
    requires |p| == 4
    ensures ConfArgs(p) == ["--conf", p[0].0 + "=" + p[0].1, "--conf", p[1].0 + "=" + p[1].1,
                            "--conf", p[2].0 + "=" + p[2].1, "--conf", p[3].0 + "=" + p[3].1]
  {
    assert p[1..][1..][1..][1..] == [];
    assert ConfArgs(p[3..]) == ["--conf", p[3].0 + "=" + p[3].1] + ConfArgs(p[4..]);
    assert ConfArgs(p[2..]) == ["--conf", p[2].0 + "=" + p[2].1] + ConfArgs(p[3..]);
    assert ConfArgs(p[1..]) == ["--conf", p[1].0 + "=" + p[1].1] + ConfArgs(p[2..]);
  }

  /** Endpoints `host:port` sharing one port. */
  function Endpoints(hosts: seq<string>, port: string): seq<string>
  {
    seq(|hosts|, i requires 0 <= i < |hosts| => hosts[i] + ":" + port)
  }

  /** Endpoint splitting undoes endpoint formatting: the consumer sees the
      very hosts and port the endpoints were made of, and its arguments can
      be built. */
  lemma EndpointSplitting(hosts: seq<string>, port: string)
    requires |hosts| > 0 && ':' !in port
    requires forall i :: 0 <= i < |hosts| ==> ':' !in hosts[i]
    ensures CassandraHosts(Endpoints(hosts, port)) == hosts
    ensures CassandraPort(Endpoints(hosts, port)) == Ok(port)
  {
    var dns := Endpoints(hosts, port);
    forall i | 0 <= i < |hosts|
      ensures Split(dns[i], ':') == [hosts[i], port]
    {
      assert dns[i] == hosts[i] + [':'] + port;
      SplitAround(hosts[i], ':', port);
      SplitWithoutSep(hosts[i], ':');
      SplitWithoutSep(port, ':');
    }
  }

  // ---------------------------------------------------------------------
  // Reading application arguments back

  /** Flag/value pairs laid out one after the other. */
  function PairArgs(pairs: seq<(string, string)>): seq<string>
    decreases |pairs|
  {
    if pairs == [] then [] else [pairs[0].0, pairs[0].1] + PairArgs(pairs[1..])
  }

  /** The same pairs as options that take a value. */
  function Valued(pairs: seq<(string, string)>): (opts: seq<(string, Option<string>)>)
    ensures |opts| == |pairs|
    ensures forall i :: 0 <= i < |opts| ==> opts[i] == (pairs[i].0, Some(pairs[i].1))
    decreases |pairs|
  {
    if pairs == [] then [] else [(pairs[0].0, Some(pairs[0].1))] + Valued(pairs[1..])
  }

  /** Flag/value pairs whose flags are not switches read back as themselves,
      whatever the values are. */
  lemma {:induction false} ReadPairArgs(pairs: seq<(string, string)>, rest: seq<string>)
    requires forall i :: 0 <= i < |pairs| ==> !IsAppSwitch(pairs[i].0)
    ensures ReadAppArgs(PairArgs(pairs) + rest) == Valued(pairs) + ReadAppArgs(rest)
    decreases |pairs|
  {
    if pairs == [] {
      assert PairArgs(pairs) + rest == rest;
    } else {
      var first := [pairs[0].0, pairs[0].1];
      var tail := PairArgs(pairs[1..]) + rest;
      AppendAssoc(first, PairArgs(pairs[1..]), rest);
      var args := first + tail;
      assert args[0] == pairs[0].0 && args[1] == pairs[0].1 && args[2..] == tail;
      assert !IsAppSwitch(pairs[0].0);
      ReadPairArgs(pairs[1..], rest);
      AppendAssoc([(pairs[0].0, Some(pairs[0].1))], Valued(pairs[1..]), ReadAppArgs(rest));
    }
  }

  /** The application arguments of a producer: the five flag/value pairs in
      order, then `--mustFailDueToInvalidArgument`, given exactly once when
      the producer must fail and otherwise not at all. */
  lemma ReadProducerAppArgs(kafkaBrokerDns: seq<string>, kafkaTopics: string, numberOfWords: int,
                            wordsPerSecond: int, mustFail: bool)
    ensures var opts := ReadAppArgs(ProducerAppArgs(kafkaBrokerDns, kafkaTopics, numberOfWords, wordsPerSecond, mustFail));
      opts == Valued([("--appName", ProducerClassName),
                      ("--brokers", Join(",", kafkaBrokerDns)),
                      ("--topics", kafkaTopics),
                      ("--numberOfWords", IntToString(numberOfWords)),
                      ("--wordsPerSecond", IntToString(wordsPerSecond))])
              + (if mustFail then [(MustFailFlag, None)] else []) &&
      SwitchCount(opts, MustFailFlag) == (if mustFail then 1 else 0)
  {
    var pairs := [("--appName", ProducerClassName),
                  ("--brokers", Join(",", kafkaBrokerDns)),
                  ("--topics", kafkaTopics),
                  ("--numberOfWords", IntToString(numberOfWords)),
                  ("--wordsPerSecond", IntToString(wordsPerSecond))];
    var switches: seq<string> := if mustFail then [MustFailFlag] else [];
    var read: seq<(string, Option<string>)> := if mustFail then [(MustFailFlag, None)] else [];
    ProducerAppArgsForm(kafkaBrokerDns, kafkaTopics, numberOfWords, wordsPerSecond, mustFail, pairs);
    ReadPairArgs(pairs, switches);
    if mustFail {
      assert switches[1..] == [];
    }
    assert ReadAppArgs(switches) == read;
    ValuedHasNoSwitch(pairs, MustFailFlag);
    assert multiset(Valued(pairs) + read) == multiset(Valued(pairs)) + multiset(read);
  }

  lemma ProducerAppArgsForm(kafkaBrokerDns: seq<string>, kafkaTopics: string, numberOfWords: int,
                            wordsPerSecond: int, mustFail: bool, pairs: seq<(string, string)>)
    requires pairs == [("--appName", ProducerClassName),
                       ("--brokers", Join(",", kafkaBrokerDns)),
                       ("--topics", kafkaTopics),
                       ("--numberOfWords", IntToString(numberOfWords)),
                       ("--wordsPerSecond", IntToString(wordsPerSecond))]
    ensures forall i :: 0 <= i < |pairs| ==> !IsAppSwitch(pairs[i].0)
    ensures ProducerAppArgs(kafkaBrokerDns, kafkaTopics, numberOfWords, wordsPerSecond, mustFail)
      == PairArgs(pairs) + (if mustFail then [MustFailFlag] else [])
  {
    PairArgsOfFive(pairs);
  }

  /** The application arguments of a consumer: the seven flag/value pairs
      in order, then `--mustFailDueToInvalidArgument` exactly when it must
      fail, then `--shouldNotWriteToCassandra` exactly when writing is off;
      each switch is given at most once. */
  lemma ReadConsumerAppArgs(kafkaBrokerDns: seq<string>, kafkaTopics: string, kafkaGroupId: string,
                            writeToCassandra: bool, batchSizeSeconds: int, cassandraKeyspace: string,
                            cassandraTable: string, mustFail: bool)
    ensures var opts := ReadAppArgs(ConsumerAppArgs(kafkaBrokerDns, kafkaTopics, kafkaGroupId, writeToCassandra,
                                                   batchSizeSeconds, cassandraKeyspace, cassandraTable, mustFail));
      opts == Valued([("--appName", ConsumerClassName),
                      ("--brokers", Join(",", kafkaBrokerDns)),
                      ("--topics", kafkaTopics),
                      ("--groupId", kafkaGroupId),
                      ("--batchSizeSeconds", IntToString(batchSizeSeconds)),
                      ("--cassandraKeyspace", cassandraKeyspace),
                      ("--cassandraTable", cassandraTable)])
              + ((if mustFail then [(MustFailFlag, None)] else []) +
                 (if writeToCassandra then [] else [(ShouldNotWriteFlag, None)])) &&
      SwitchCount(opts, MustFailFlag) == (if mustFail then 1 else 0) &&
      SwitchCount(opts, ShouldNotWriteFlag) == (if writeToCassandra then 0 else 1)
  {
    var pairs := [("--appName", ConsumerClassName),
                  ("--brokers", Join(",", kafkaBrokerDns)),
                  ("--topics", kafkaTopics),
                  ("--groupId", kafkaGroupId),
                  ("--batchSizeSeconds", IntToString(batchSizeSeconds)),
                  ("--cassandraKeyspace", cassandraKeyspace),
                  ("--cassandraTable", cassandraTable)];
    var fail: seq<string> := if mustFail then [MustFailFlag] else [];
    var noWrite: seq<string> := if writeToCassandra then [] else [ShouldNotWriteFlag];
    ConsumerAppArgsForm(kafkaBrokerDns, kafkaTopics, kafkaGroupId, writeToCassandra,
                        batchSizeSeconds, cassandraKeyspace, cassandraTable, mustFail, pairs);
    ReadPairsThenSwitches(pairs, mustFail, !writeToCassandra);
  }

  /** Flag/value pairs followed by the two optional switches read back as
      the pairs, then each switch given exactly when it is present. */
  lemma ReadPairsThenSwitches(pairs: seq<(string, string)>, fail: bool, noWrite: bool)
    requires forall i :: 0 <= i < |pairs| ==> !IsAppSwitch(pairs[i].0)
    ensures var opts := ReadAppArgs(PairArgs(pairs) + ((if fail then [MustFailFlag] else []) +
                                                      (if noWrite then [ShouldNotWriteFlag] else [])));
      opts == Valued(pairs) + ((if fail then [(MustFailFlag, None)] else []) +
                               (if noWrite then [(ShouldNotWriteFlag, None)] else [])) &&
      SwitchCount(opts, MustFailFlag) == (if fail then 1 else 0) &&
      SwitchCount(opts, ShouldNotWriteFlag) == (if noWrite then 1 else 0)
  {
    var f: seq<string> := if fail then [MustFailFlag] else [];
    var w: seq<string> := if noWrite then [ShouldNotWriteFlag] else [];
    var sf: seq<(string, Option<string>)> := if fail then [(MustFailFlag, None)] else [];
    var sw: seq<(string, Option<string>)> := if noWrite then [(ShouldNotWriteFlag, None)] else [];
    ReadPairArgs(pairs, f + w);
    ReadSwitches(f, w);
    assert ReadAppArgs(f + w) == sf + sw;
    SwitchCounts(pairs, fail, noWrite);
  }

  lemma SwitchCounts(pairs: seq<(string, string)>, fail: bool, noWrite: bool)
    ensures var opts := Valued(pairs) + ((if fail then [(MustFailFlag, None)] else []) +
                                         (if noWrite then [(ShouldNotWriteFlag, None)] else []));
      SwitchCount(opts, MustFailFlag) == (if fail then 1 else 0) &&
      SwitchCount(opts, ShouldNotWriteFlag) == (if noWrite then 1 else 0)
  {
    var sf: seq<(string, Option<string>)> := if fail then [(MustFailFlag, None)] else [];
    var sw: seq<(string, Option<string>)> := if noWrite then [(ShouldNotWriteFlag, None)] else [];
    ValuedHasNoSwitch(pairs, MustFailFlag);
    ValuedHasNoSwitch(pairs, ShouldNotWriteFlag);
    SwitchesDiffer();
    CountIn3(Valued(pairs), sf, sw, (MustFailFlag, None));
    CountIn3(Valued(pairs), sf, sw, (ShouldNotWriteFlag, None));
  }

  lemma SwitchesDiffer()
    ensures MustFailFlag != ShouldNotWriteFlag
  {
    assert MustFailFlag[2] != ShouldNotWriteFlag[2];
  }

  lemma CountIn3<T>(a: seq<T>, b: seq<T>, c: seq<T>, x: T)
    ensures multiset(a + (b + c))[x] == multiset(a)[x] + multiset(b)[x] + multiset(c)[x]
  {
    assert multiset(a + (b + c)) == multiset(a) + (multiset(b) + multiset(c));
  }

  lemma ConsumerAppArgsForm(kafkaBrokerDns: seq<string>, kafkaTopics: string, kafkaGroupId: string,
                            writeToCassandra: bool, batchSizeSeconds: int, cassandraKeyspace: string,
                            cassandraTable: string, mustFail: bool, pairs: seq<(string, string)>)
    requires pairs == [("--appName", ConsumerClassName),
                       ("--brokers", Join(",", kafkaBrokerDns)),
                       ("--topics", kafkaTopics),
                       ("--groupId", kafkaGroupId),
                       ("--batchSizeSeconds", IntToString(batchSizeSeconds)),
                       ("--cassandraKeyspace", cassandraKeyspace),
                       ("--cassandraTable", cassandraTable)]
    ensures forall i :: 0 <= i < |pairs| ==> !IsAppSwitch(pairs[i].0)
    ensures ConsumerAppArgs(kafkaBrokerDns, kafkaTopics, kafkaGroupId, writeToCassandra,
                            batchSizeSeconds, cassandraKeyspace, cassandraTable, mustFail)
      == PairArgs(pairs) + ((if mustFail then [MustFailFlag] else []) +
                            (if writeToCassandra then [] else [ShouldNotWriteFlag]))
  {
    PairArgsOfSeven(pairs);
  }

  /** Switches alone read back as switches. */
  lemma ReadSwitches(fail: seq<string>, noWrite: seq<string>)
    requires fail == [] || fail == [MustFailFlag]
    requires noWrite == [] || noWrite == [ShouldNotWriteFlag]
    ensures ReadAppArgs(fail + noWrite) ==
      (if fail == [] then [] else [(MustFailFlag, None)]) +
      (if noWrite == [] then [] else [(ShouldNotWriteFlag, None)])
  {
    if noWrite != [] {
      assert ReadAppArgs(noWrite) == [(ShouldNotWriteFlag, None)] + ReadAppArgs(noWrite[1..]);
      assert noWrite[1..] == [];
    }
    if fail != [] {
      assert (fail + noWrite)[1..] == noWrite;
      assert ReadAppArgs(fail + noWrite) == [(MustFailFlag, None)] + ReadAppArgs(noWrite);
    } else {
      assert fail + noWrite == noWrite;
    }
  }

  lemma {:induction false} ValuedHasNoSwitch(pairs: seq<(string, string)>, flag: string)
    ensures multiset(Valued(pairs))[(flag, None)] == 0
    decreases |pairs|
  {
    if pairs != [] {
      ValuedHasNoSwitch(pairs[1..], flag);
      assert Valued(pairs) == [(pairs[0].0, Some(pairs[0].1))] + Valued(pairs[1..]);
    }
  }

  lemma PairArgsOfFive(p: seq<(string, string)>)
    requires |p| == 5
    ensures PairArgs(p) == [p[0].0, p[0].1, p[1].0, p[1].1, p[2].0, p[2].1, p[3].0, p[3].1, p[4].0, p[4].1]
  {
    assert p[1..][1..][1..][1..][1..] == [];
    assert PairArgs(p[4..]) == [p[4].0, p[4].1] + PairArgs(p[5..]);
    assert PairArgs(p[3..]) == [p[3].0, p[3].1] + PairArgs(p[4..]);
    assert PairArgs(p[2..]) == [p[2].0, p[2].1] + PairArgs(p[3..]);
    assert PairArgs(p[1..]) == [p[1].0, p[1].1] + PairArgs(p[2..]);
  }

  lemma PairArgsOfSeven(p: seq<(string, string)>)
    requires |p| == 7
    ensures PairArgs(p) == [p[0].0, p[0].1, p[1].0, p[1].1, p[2].0, p[2].1, p[3].0, p[3].1,
                            p[4].0, p[4].1, p[5].0, p[5].1, p[6].0, p[6].1]
  {
    PairArgsOfFive(p[2..]);
    assert p[2..][0] == p[2] && p[2..][4] == p[6];
    assert PairArgs(p[1..]) == [p[1].0, p[1].1] + PairArgs(p[2..]);
  }
}
