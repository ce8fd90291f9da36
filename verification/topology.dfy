/** The jobs the driver submits and the names it gives them: for every Kafka
    cluster, `num_producers_per_kafka` producers, each followed directly by
    its `num_consumers_per_producer` consumers. */
module Topology {
  import opened Text
  import opened Providing

  /** A Kafka cluster of the infrastructure file. */
  datatype KafkaCluster = KafkaCluster(packageName: string, serviceName: string)

  /** A job, by the indices the driver's loops give it: the Kafka cluster,
      the producer within the cluster and the consumer within the producer. */
  datatype Job =
    | Producer(kafka: nat, producer: nat)
    | Consumer(kafka: nat, producer: nat, consumer: nat)

  // ---------------------------------------------------------------------
  // The order of the driver's loops

  /** The consumers of one producer, by increasing index. */
  function Consumers(kafka: nat, producer: nat, n: nat): seq<Job>
    decreases n
  {
    if n == 0 then [] else Consumers(kafka, producer, n - 1) + [Consumer(kafka, producer, n - 1)]
  }

  /** A producer followed by its consumers. */
  function ProducerBlock(kafka: nat, producer: nat, consumers: nat): seq<Job>
  {
    [Producer(kafka, producer)] + Consumers(kafka, producer, consumers)
  }

  /** The first `n` producer blocks of one cluster. */
  function ProducerBlocks(kafka: nat, n: nat, consumers: nat): seq<Job>
    decreases n
  {
    if n == 0 then [] else ProducerBlocks(kafka, n - 1, consumers) + ProducerBlock(kafka, n - 1, consumers)
  }

  /** The jobs of the first `n` clusters. */
  function ClusterJobs(n: nat, producers: nat, consumers: nat): seq<Job>
    decreases n
  {
    if n == 0 then [] else ClusterJobs(n - 1, producers, consumers) + ProducerBlocks(n - 1, producers, consumers)
  }

  /** Every job of a run, in submission order; `range(0, n)` with a
      negative `n` is empty. */
  function AllJobs(numKafkas: nat, producersPerKafka: int, consumersPerProducer: int): seq<Job>
  {
    ClusterJobs(numKafkas, Clamp(producersPerKafka), Clamp(consumersPerProducer))
  }

  /** The jobs a run with these counts has. */
  predicate InBounds(j: Job, numKafkas: nat, producers: nat, consumers: nat)
  {
    j.kafka < numKafkas && j.producer < producers && (j.Consumer? ==> j.consumer < consumers)
  }

  /** Submission order: by cluster, then by producer, the producer before
      its consumers, consumers by index. */
  function Rank(j: Job): nat
  {
    if j.Producer? then 0 else j.consumer + 1
  }

  predicate Before(x: Job, y: Job)
  {
    x.kafka < y.kafka ||
    (x.kafka == y.kafka && (x.producer < y.producer || (x.producer == y.producer && Rank(x) < Rank(y))))
  }

  predicate Ordered(s: seq<Job>)
  {
    forall i, j :: 0 <= i < j < |s| ==> Before(s[i], s[j])
  }

  /** Membership in a concatenation, kept apart from the recursive
      definitions so that their proofs need not unfold them further. */
  lemma InConcat(j: Job, a: seq<Job>, b: seq<Job>)
    ensures j in a + b <==> j in a || j in b
  {
  }

  lemma {:induction false} ConsumersMembers(kafka: nat, producer: nat, n: nat, j: Job)
    ensures j in Consumers(kafka, producer, n) <==>
      j.Consumer? && j.kafka == kafka && j.producer == producer && j.consumer < n
    decreases n
  {
    if n > 0 {
      ConsumersMembers(kafka, producer, n - 1, j);
      InConcat(j, Consumers(kafka, producer, n - 1), [Consumer(kafka, producer, n - 1)]);
    }
  }

  lemma BlocksMembers(kafka: nat, n: nat, consumers: nat, j: Job)
    ensures j in ProducerBlocks(kafka, n, consumers) <==>
      j.kafka == kafka && j.producer < n && (j.Consumer? ==> j.consumer < consumers)
  {
    if j in ProducerBlocks(kafka, n, consumers) {
      BlocksWithinBounds(kafka, n, consumers, j);
    }
    if j.kafka == kafka && j.producer < n && (j.Consumer? ==> j.consumer < consumers) {
      BlocksCoverBounds(kafka, n, consumers, j);
    }
  }

  lemma {:induction false} BlocksWithinBounds(kafka: nat, n: nat, consumers: nat, j: Job)
    requires j in ProducerBlocks(kafka, n, consumers)
    ensures j.kafka == kafka && j.producer < n && (j.Consumer? ==> j.consumer < consumers)
    decreases n
  {
    var m: nat := n - 1;
    var earlier := ProducerBlocks(kafka, m, consumers);
    var block := ProducerBlock(kafka, m, consumers);
    assert ProducerBlocks(kafka, n, consumers) == earlier + block;
    InConcat(j, earlier, block);
    if j in earlier {
      BlocksWithinBounds(kafka, m, consumers, j);
    } else {
      InConcat(j, [Producer(kafka, m)], Consumers(kafka, m, consumers));
      ConsumersMembers(kafka, m, consumers, j);
    }
  }

  lemma {:induction false} BlocksCoverBounds(kafka: nat, n: nat, consumers: nat, j: Job)
    requires j.kafka == kafka && j.producer < n && (j.Consumer? ==> j.consumer < consumers)
    ensures j in ProducerBlocks(kafka, n, consumers)
    decreases n
  {
    var m: nat := n - 1;
    var earlier := ProducerBlocks(kafka, m, consumers);
    var block := ProducerBlock(kafka, m, consumers);
    assert ProducerBlocks(kafka, n, consumers) == earlier + block;
    InConcat(j, earlier, block);
    if j.producer < m {
      BlocksCoverBounds(kafka, m, consumers, j);
    } else {
      InConcat(j, [Producer(kafka, m)], Consumers(kafka, m, consumers));
      if j.Consumer? {
        ConsumersMembers(kafka, m, consumers, j);
      }
    }
  }

  lemma ClusterMembers(n: nat, producers: nat, consumers: nat, j: Job)
    ensures j in ClusterJobs(n, producers, consumers) <==> InBounds(j, n, producers, consumers)
  {
    if j in ClusterJobs(n, producers, consumers) {
      ClusterWithinBounds(n, producers, consumers, j);
    }
    if InBounds(j, n, producers, consumers) {
      ClusterCoversBounds(n, producers, consumers, j);
    }
  }

  lemma {:induction false} ClusterWithinBounds(n: nat, producers: nat, consumers: nat, j: Job)
    requires j in ClusterJobs(n, producers, consumers)
    ensures InBounds(j, n, producers, consumers)
    decreases n
  {
    var m: nat := n - 1;
    var earlier := ClusterJobs(m, producers, consumers);
    var blocks := ProducerBlocks(m, producers, consumers);
    assert ClusterJobs(n, producers, consumers) == earlier + blocks;
    InConcat(j, earlier, blocks);
    if j in earlier {
      ClusterWithinBounds(m, producers, consumers, j);
    } else {
      BlocksWithinBounds(m, producers, consumers, j);
    }
  }

  lemma {:induction false} ClusterCoversBounds(n: nat, producers: nat, consumers: nat, j: Job)
    requires InBounds(j, n, producers, consumers)
    ensures j in ClusterJobs(n, producers, consumers)
    decreases n
  {
    var m: nat := n - 1;
    var earlier := ClusterJobs(m, producers, consumers);
    var blocks := ProducerBlocks(m, producers, consumers);
    assert ClusterJobs(n, producers, consumers) == earlier + blocks;
    InConcat(j, earlier, blocks);
    if j.kafka < m {
      ClusterCoversBounds(m, producers, consumers, j);
    } else {
      BlocksCoverBounds(m, producers, consumers, j);
    }
  }

  /** A run submits every job its counts call for and no other. */
  lemma AllJobsMembers(numKafkas: nat, producersPerKafka: int, consumersPerProducer: int, j: Job)
    ensures j in AllJobs(numKafkas, producersPerKafka, consumersPerProducer) <==>
      InBounds(j, numKafkas, Clamp(producersPerKafka), Clamp(consumersPerProducer))
  {
    ClusterMembers(numKafkas, Clamp(producersPerKafka), Clamp(consumersPerProducer), j);
  }

  lemma OrderedConcat(a: seq<Job>, b: seq<Job>)
    requires Ordered(a) && Ordered(b)
    requires forall x, y :: x in a && y in b ==> Before(x, y)
    ensures Ordered(a + b)
  {
    forall i, j | 0 <= i < j < |a + b|
      ensures Before((a + b)[i], (a + b)[j])
    {
      if j < |a| {
        assert Before(a[i], a[j]);
      } else if i >= |a| {
        assert Before(b[i - |a|], b[j - |a|]);
      } else {
        assert a[i] in a && b[j - |a|] in b;
      }
    }
  }

  lemma {:induction false} ConsumersOrdered(kafka: nat, producer: nat, n: nat)
    ensures Ordered(Consumers(kafka, producer, n))
    decreases n
  {
    if n > 0 {
      ConsumersOrdered(kafka, producer, n - 1);
      ConsumersBeforeNext(kafka, producer, n - 1);
      OrderedConcat(Consumers(kafka, producer, n - 1), [Consumer(kafka, producer, n - 1)]);
    }
  }

  lemma ConsumersBeforeNext(kafka: nat, producer: nat, n: nat)
    ensures forall x, y | x in Consumers(kafka, producer, n) && y in [Consumer(kafka, producer, n)] :: Before(x, y)
  {
    forall x, y | x in Consumers(kafka, producer, n) && y in [Consumer(kafka, producer, n)]
      ensures Before(x, y)
    {
      ConsumersMembers(kafka, producer, n, x);
    }
  }

  /** A producer's block is ordered: the producer, then its consumers. */
  lemma BlockOrdered(kafka: nat, producer: nat, consumers: nat)
    ensures Ordered(ProducerBlock(kafka, producer, consumers))
  {
    ConsumersOrdered(kafka, producer, consumers);
    ProducerBeforeConsumers(kafka, producer, consumers);
    OrderedConcat([Producer(kafka, producer)], Consumers(kafka, producer, consumers));
  }

  lemma ProducerBeforeConsumers(kafka: nat, producer: nat, consumers: nat)
    ensures forall x, y | x in [Producer(kafka, producer)] && y in Consumers(kafka, producer, consumers) :: Before(x, y)
  {
    forall x, y | x in [Producer(kafka, producer)] && y in Consumers(kafka, producer, consumers)
      ensures Before(x, y)
    {
      ConsumersMembers(kafka, producer, consumers, y);
    }
  }

  lemma {:induction false} BlocksOrdered(kafka: nat, n: nat, consumers: nat)
    ensures Ordered(ProducerBlocks(kafka, n, consumers))
    decreases n
  {
    if n > 0 {
      BlocksOrdered(kafka, n - 1, consumers);
      BlockOrdered(kafka, n - 1, consumers);
      BlocksBeforeNext(kafka, n - 1, consumers);
      OrderedConcat(ProducerBlocks(kafka, n - 1, consumers), ProducerBlock(kafka, n - 1, consumers));
    }
  }

  lemma BlocksBeforeNext(kafka: nat, p: nat, consumers: nat)
    ensures forall x, y | x in ProducerBlocks(kafka, p, consumers) && y in ProducerBlock(kafka, p, consumers) :: Before(x, y)
  {
    forall x, y | x in ProducerBlocks(kafka, p, consumers) && y in ProducerBlock(kafka, p, consumers)
      ensures Before(x, y)
    {
      BlocksMembers(kafka, p, consumers, x);
      InConcat(y, [Producer(kafka, p)], Consumers(kafka, p, consumers));
      ConsumersMembers(kafka, p, consumers, y);
    }
  }

  lemma {:induction false} ClusterOrdered(n: nat, producers: nat, consumers: nat)
    ensures Ordered(ClusterJobs(n, producers, consumers))
    decreases n
  {
    if n > 0 {
      ClusterOrdered(n - 1, producers, consumers);
      BlocksOrdered(n - 1, producers, consumers);
      ClusterBeforeNext(n - 1, producers, consumers);
      OrderedConcat(ClusterJobs(n - 1, producers, consumers), ProducerBlocks(n - 1, producers, consumers));
    }
  }

  lemma ClusterBeforeNext(n: nat, producers: nat, consumers: nat)
    ensures forall x, y | x in ClusterJobs(n, producers, consumers) && y in ProducerBlocks(n, producers, consumers) ::
      Before(x, y)
  {
    forall x, y | x in ClusterJobs(n, producers, consumers) && y in ProducerBlocks(n, producers, consumers)
      ensures Before(x, y)
    {
      ClusterMembers(n, producers, consumers, x);
      BlocksMembers(n, producers, consumers, y);
    }
  }

  /** Jobs are submitted cluster by cluster and producer by producer, each
      producer directly before its consumers; so no job is submitted twice. */
  lemma AllJobsOrdered(numKafkas: nat, producersPerKafka: int, consumersPerProducer: int)
    ensures Ordered(AllJobs(numKafkas, producersPerKafka, consumersPerProducer))
  {
    ClusterOrdered(numKafkas, Clamp(producersPerKafka), Clamp(consumersPerProducer));
  }

  lemma {:induction false} ConsumersLength(kafka: nat, producer: nat, n: nat)
    ensures |Consumers(kafka, producer, n)| == n
    decreases n
  {
    if n > 0 {
      ConsumersLength(kafka, producer, n - 1);
    }
  }

  lemma {:induction false} BlocksLength(kafka: nat, n: nat, consumers: nat)
    ensures |ProducerBlocks(kafka, n, consumers)| == n * (1 + consumers)
    decreases n
  {
    if n > 0 {
      BlocksLength(kafka, n - 1, consumers);
      ConsumersLength(kafka, n - 1, consumers);
      assert (n - 1) * (1 + consumers) + (1 + consumers) == n * (1 + consumers);
    }
  }

  lemma {:induction false} ClusterLength(n: nat, producers: nat, consumers: nat)
    ensures |ClusterJobs(n, producers, consumers)| == n * (producers * (1 + consumers))
    decreases n
  {
    if n > 0 {
      ClusterLength(n - 1, producers, consumers);
      BlocksLength(n - 1, producers, consumers);
      assert (n - 1) * (producers * (1 + consumers)) + producers * (1 + consumers)
          == n * (producers * (1 + consumers));
    }
  }

  /** A run has `num_kafkas * num_producers_per_kafka` producers and
      `num_consumers_per_producer` consumers for each, which is the
      `num_jobs` the slots are sized for whenever neither count is negative. */
  lemma AllJobsCount(numKafkas: nat, producersPerKafka: int, consumersPerProducer: int)
    ensures |AllJobs(numKafkas, producersPerKafka, consumersPerProducer)| ==
      numKafkas * (Clamp(producersPerKafka) * (1 + Clamp(consumersPerProducer)))
    ensures producersPerKafka >= 0 && consumersPerProducer >= 0 ==>
      |AllJobs(numKafkas, producersPerKafka, consumersPerProducer)| ==
        numKafkas * producersPerKafka + numKafkas * producersPerKafka * consumersPerProducer
  {
    var p := Clamp(producersPerKafka);
    var c := Clamp(consumersPerProducer);
    ClusterLength(numKafkas, p, c);
    Distribute3(numKafkas, p, c);
  }

  lemma Distribute3(k: nat, p: nat, c: nat)
    ensures k * (p * (1 + c)) == k * p + k * p * c
  {
  }

  // ---------------------------------------------------------------------
  // Names

  /** `'{}-{}'.format(normalize_string(kafka_service_name), producer_idx)`:
      the producer's topic; `normalize_string` is a parameter. */
  function TopicName(normalize: string -> string, kafka: KafkaCluster, producer: nat): (t: string)
    ensures var name := normalize(kafka.serviceName);
      name + "-" <= t && IsDigits(t[|name| + 1..]) && ParseDigits(t[|name| + 1..]) == producer
  {
    ParseNatToString(producer);
    normalize(kafka.serviceName) + "-" + NatToString(producer)
  }

  /** `'{}-{}'.format(producer_name, consumer_idx)`: the consumer's group id. */
  function GroupId(topic: string, consumer: nat): (g: string)
    ensures topic + "-" <= g && IsDigits(g[|topic| + 1..]) && ParseDigits(g[|topic| + 1..]) == consumer
  {
    ParseNatToString(consumer);
    topic + "-" + NatToString(consumer)
  }

  /** `'table_{}'.format(consumer_idx)`. */
  function TableName(consumer: nat): (t: string)
    ensures "table_" <= t && IsDigits(t[6..]) && ParseDigits(t[6..]) == consumer
  {
    ParseNatToString(consumer);
    "table_" + NatToString(consumer)
  }

  /** Clusters whose service names stay distinct after normalisation. */
  predicate DistinctNames(normalize: string -> string, kafkas: seq<KafkaCluster>)
  {
    forall i, j :: 0 <= i < j < |kafkas| ==> normalize(kafkas[i].serviceName) != normalize(kafkas[j].serviceName)
  }

  /** Two producers share a topic only if they are the same producer. */
  lemma TopicNamesDistinct(normalize: string -> string, kafkas: seq<KafkaCluster>,
                           k1: nat, p1: nat, k2: nat, p2: nat)
    requires DistinctNames(normalize, kafkas)
    requires k1 < |kafkas| && k2 < |kafkas|
    ensures TopicName(normalize, kafkas[k1], p1) == TopicName(normalize, kafkas[k2], p2) <==> k1 == k2 && p1 == p2
  {
    if TopicName(normalize, kafkas[k1], p1) == TopicName(normalize, kafkas[k2], p2) {
      DashNumberInjective(normalize(kafkas[k1].serviceName), p1, normalize(kafkas[k2].serviceName), p2);
    }
  }

  /** Two consumers share a group id only if they are the same consumer. */
  lemma GroupIdsDistinct(normalize: string -> string, kafkas: seq<KafkaCluster>,
                         k1: nat, p1: nat, c1: nat, k2: nat, p2: nat, c2: nat)
    requires DistinctNames(normalize, kafkas)
    requires k1 < |kafkas| && k2 < |kafkas|
    ensures GroupId(TopicName(normalize, kafkas[k1], p1), c1) == GroupId(TopicName(normalize, kafkas[k2], p2), c2)
        <==> k1 == k2 && p1 == p2 && c1 == c2
  {
    var t1 := TopicName(normalize, kafkas[k1], p1);
    var t2 := TopicName(normalize, kafkas[k2], p2);
    if GroupId(t1, c1) == GroupId(t2, c2) {
      DashNumberInjective(t1, c1, t2, c2);
      TopicNamesDistinct(normalize, kafkas, k1, p1, k2, p2);
    }
  }
}
