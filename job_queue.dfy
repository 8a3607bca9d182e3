/** `api/helpers/job_queue.py`: one AMQP queue per region, named after the
    region, reached through the `amqp-declare-queue` and `amqp-publish`
    tools. A tool that exits with an error raises, which ends the run. */
module JobQueue {
  import Trace

  /** One invocation of an AMQP command-line tool against the broker. */
  datatype AmqpCall =
    | DeclareQueue(url: string, queue: string)                     // amqp-declare-queue --url URL -q QUEUE -d
    | Publish(url: string, routingKey: string, message: string)    // amqp-publish --url URL -r KEY -p, message on stdin

  /** The message published to every queue when it is declared. */
  const StartupMessage := "Startup"

  /** `_get_queue_name`: the prefix, a dot, and the region. */
  function QueueName(prefix: string, region: string): (q: string)
    ensures |q| == |prefix| + 1 + |region|
    ensures q[..|prefix|] == prefix && q[|prefix|] == '.' && q[|prefix| + 1..] == region
  {
    prefix + "." + region
  }

  /** For a fixed prefix, distinct regions get distinct queues. */
  lemma QueueNameInjective(prefix: string, r1: string, r2: string)
    ensures QueueName(prefix, r1) == QueueName(prefix, r2) ==> r1 == r2
  {
    if QueueName(prefix, r1) == QueueName(prefix, r2) {
      assert r1 == QueueName(prefix, r1)[|prefix| + 1..];
    }
  }

  /** What `_init_job_queues` tries to issue for `regions`: for each region,
      in list order, a declare and then the startup publish. */
  function InitPlan(url: string, prefix: string, regions: seq<string>): seq<AmqpCall> {
    if |regions| == 0 then []
    else
      InitPlan(url, prefix, regions[..|regions| - 1])
      + [DeclareQueue(url, QueueName(prefix, regions[|regions| - 1])),
         Publish(url, QueueName(prefix, regions[|regions| - 1]), StartupMessage)]
  }

  /** The plan has two calls per region: at `2i` the declare of region `i`'s
      queue, at `2i + 1` the startup publish to it. */
  lemma {:induction false} InitPlanShape(url: string, prefix: string, regions: seq<string>)
    ensures |InitPlan(url, prefix, regions)| == 2 * |regions|
    ensures forall i :: 0 <= i < |regions| ==>
      InitPlan(url, prefix, regions)[2 * i] == DeclareQueue(url, QueueName(prefix, regions[i]))
      && InitPlan(url, prefix, regions)[2 * i + 1] == Publish(url, QueueName(prefix, regions[i]), StartupMessage)
  {
    if |regions| > 0 {
      var front := regions[..|regions| - 1];
      InitPlanShape(url, prefix, front);
      assert forall i :: 0 <= i < |front| ==> front[i] == regions[i];
    }
  }

  class Queue {
    /** The regions whose queues this object serves. */
    const regions: seq<string>
    /** `BROKER_URL` and `QUEUE_PERFIX`. */
    const brokerUrl: string
    const prefix: string
    /** Which tool invocations exit with an error. */
    const fails: AmqpCall -> bool
    /** Every tool invocation issued so far. */
    var calls: seq<AmqpCall>

    /** `JobQueue.__init__`: stores the regions; it does not declare the queues. */
    constructor (regions: seq<string>, brokerUrl: string, prefix: string, fails: AmqpCall -> bool)
      ensures this.regions == regions && this.brokerUrl == brokerUrl && this.prefix == prefix
      ensures this.fails == fails
      ensures calls == []
    {
      this.regions := regions;
      this.brokerUrl := brokerUrl;
      this.prefix := prefix;
      this.fails := fails;
      calls := [];
    }

    /** `send_message_to_region`: exactly one publish of the message, as is,
        to the region's queue; `ok` is false when the tool fails. */
    method SendMessageToRegion(region: string, message: string) returns (ok: bool)
      modifies this
      ensures calls == old(calls) + [Publish(brokerUrl, QueueName(prefix, region), message)]
      ensures ok == !fails(Publish(brokerUrl, QueueName(prefix, region), message))
    {
      var c := Publish(brokerUrl, QueueName(prefix, region), message);
      calls := calls + [c];
      ok := !fails(c);
    }

    /** `_init_job_queues`: walks the regions in order, declaring each queue
        and publishing the startup message to it, until a tool fails. */
    method InitJobQueues() returns (ok: bool)
      modifies this
      ensures calls == old(calls) + Trace.Executed(InitPlan(brokerUrl, prefix, regions), fails)
      ensures ok == Trace.AllSucceed(InitPlan(brokerUrl, prefix, regions), fails)
    {
      ok := true;
      var i := 0;
      while i < |regions|
        invariant 0 <= i <= |regions|
        invariant Trace.AllSucceed(InitPlan(brokerUrl, prefix, regions[..i]), fails)
        invariant calls == old(calls) + InitPlan(brokerUrl, prefix, regions[..i])
      {
        var before := InitPlan(brokerUrl, prefix, regions[..i]);
        assert regions[..i + 1][..i] == regions[..i];
        var declare := DeclareQueue(brokerUrl, QueueName(prefix, regions[i]));
        var publish := Publish(brokerUrl, QueueName(prefix, regions[i]), StartupMessage);
        assert InitPlan(brokerUrl, prefix, regions[..i + 1]) == before + [declare, publish];
        ghost var round := [declare, publish];
        calls := calls + [declare];
        if fails(declare) {
          ok := false;
          assert before + round[..0] == before;
          StoppedAt(before, round, InitPlan(brokerUrl, prefix, regions), regions, i, 0);
          return;
        }
        Trace.SucceedAppend(before, [declare], fails);
        ok := SendMessageToRegion(regions[i], StartupMessage);
        if !ok {
          assert round[..1] == [declare];
          StoppedAt(before, round, InitPlan(brokerUrl, prefix, regions), regions, i, 1);
          return;
        }
        Trace.SucceedAppend(before, round, fails);
        assert calls == old(calls) + (before + round);
        i := i + 1;
      }
      assert regions[..i] == regions;
      Trace.ExecutedAll(InitPlan(brokerUrl, prefix, regions), fails);
    }

    /** The log when the `k`-th call for region `i` is the first to fail. */
    lemma StoppedAt(before: seq<AmqpCall>, round: seq<AmqpCall>, plan: seq<AmqpCall>,
                    rs: seq<string>, i: nat, k: nat)
      requires rs == regions && i < |rs| && k < 2 && |round| == 2
      requires before == InitPlan(brokerUrl, prefix, rs[..i])
      requires InitPlan(brokerUrl, prefix, rs[..i + 1]) == before + round
      requires plan == InitPlan(brokerUrl, prefix, rs)
      requires Trace.AllSucceed(before + round[..k], fails) && fails(round[k])
      ensures Trace.Executed(plan, fails) == before + round[..k + 1]
      ensures !Trace.AllSucceed(plan, fails)
    {
      InitPlanPrefix(brokerUrl, prefix, rs, i + 1);
      Trace.StopsInRound(plan, fails, before, round, k);
    }
  }

  /** The plan for a prefix of the regions is a prefix of the plan. */
  lemma {:induction false} InitPlanPrefix(url: string, prefix: string, regions: seq<string>, i: nat)
    requires i <= |regions|
    ensures |InitPlan(url, prefix, regions[..i])| <= |InitPlan(url, prefix, regions)|
    ensures InitPlan(url, prefix, regions)[..|InitPlan(url, prefix, regions[..i])|] == InitPlan(url, prefix, regions[..i])
    decreases |regions|
  {
    if i < |regions| {
      var front := regions[..|regions| - 1];
      InitPlanPrefix(url, prefix, front, i);
      assert front[..i] == regions[..i];
    } else {
      assert regions[..i] == regions;
    }
  }
}
