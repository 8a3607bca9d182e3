/** The Kubernetes cluster as the storage CLI sees it through `kubectl`:
    every command is appended to a log, a command may fail (the source's
    `run_command` then raises `ValueError`), and the answers to repeated
    status polls are given in advance, one per poll. */
module Kube {
  import opened Common
  import Yaml

  /** What `kubectl create -f -` reads on stdin: the substituted template
      text, or `yaml.dump` of a config document. */
  datatype Manifest = Text(text: string) | Document(doc: Yaml.Value)

  datatype Kubectl =
    | Create(manifest: Manifest)      // kubectl create -f -
    | QueryJobStatus(job: string)       // kubectl get job JOB -o=jsonpath={.status}
    | GetPvcPhase(pvc: string)        // kubectl get pvc PVC -o=jsonpath={.status.phase}
    | GetPvc(pvc: string)             // kubectl get pvc PVC
    | DeletePvc(pvc: string)          // kubectl delete pvc PVC
    | ListPvcs                        // kubectl get pvc
    | Sleep(seconds: nat)             // time.sleep

  /** The output of a job-status poll: a JSON object or text that is not JSON. */
  datatype StatusOutput = JsonObject(entries: seq<(string, Yaml.Value)>) | NotJson(text: string)

  /** The answer to one job-status poll: its output, or the command failing. */
  datatype JobPoll = JobOutput(output: StatusOutput) | JobCommandFails

  /** The answer to one PVC-phase poll. */
  datatype PvcPoll = Phase(phase: string) | PvcCommandFails

  /** Why an operation ended in an exception: a command that exited with an
      error, or a `ValueError` raised by the code itself. */
  datatype Failure = CommandFailed(command: Kubectl) | Message(text: string)

  /** How a step that may wait on the cluster ends. `StillWaiting` means
      every given poll answer said "keep waiting": the source would go on
      polling. */
  datatype Outcome = Finished | StillWaiting | Raised(failure: Failure)

  /** Seconds slept between two polls, in both wait loops. */
  const PollInterval: nat := 10

  class Cluster {
    /** Every command issued so far, in order. */
    var log: seq<Kubectl>
    /** Which non-polling commands exit with a non-zero status. */
    const fails: Kubectl -> bool
    /** The successive answers to the status polls of each job. */
    const jobPolls: string -> seq<JobPoll>
    /** The successive answers to the phase polls of each PVC. */
    const pvcPolls: string -> seq<PvcPoll>
    /** `exist_pvc`, which the source imports but does not define. */
    const pvcExists: string -> bool

    constructor (fails: Kubectl -> bool, jobPolls: string -> seq<JobPoll>,
                 pvcPolls: string -> seq<PvcPoll>, pvcExists: string -> bool)
      ensures log == []
      ensures this.fails == fails && this.jobPolls == jobPolls
      ensures this.pvcPolls == pvcPolls && this.pvcExists == pvcExists
    {
      log := [];
      this.fails := fails;
      this.jobPolls := jobPolls;
      this.pvcPolls := pvcPolls;
      this.pvcExists := pvcExists;
    }

    /** Issue one command; `ok` is false when it exits with an error. */
    method Run(c: Kubectl) returns (ok: bool)
      modifies this
      ensures log == old(log) + [c]
      ensures ok == !fails(c)
    {
      log := log + [c];
      ok := !fails(c);
    }

    /** Poll the status of a job for the `i`-th time. */
    method PollJob(job: string, i: nat) returns (a: JobPoll)
      requires i < |jobPolls(job)|
      modifies this
      ensures log == old(log) + [QueryJobStatus(job)]
      ensures a == jobPolls(job)[i]
    {
      log := log + [QueryJobStatus(job)];
      a := jobPolls(job)[i];
    }

    /** Poll the phase of a PVC for the `i`-th time. */
    method PollPvc(pvc: string, i: nat) returns (a: PvcPoll)
      requires i < |pvcPolls(pvc)|
      modifies this
      ensures log == old(log) + [GetPvcPhase(pvc)]
      ensures a == pvcPolls(pvc)[i]
    {
      log := log + [GetPvcPhase(pvc)];
      a := pvcPolls(pvc)[i];
    }

    /** Record a sleep between two polls. */
    method Pause()
      modifies this
      ensures log == old(log) + [Sleep(PollInterval)]
    {
      log := log + [Sleep(PollInterval)];
    }
  }

  /** The log of `n` unsuccessful polling rounds: each the poll, then a sleep. */
  function Rounds(poll: Kubectl, n: nat): seq<Kubectl> {
    if n == 0 then [] else Rounds(poll, n - 1) + [poll, Sleep(PollInterval)]
  }

  /** The index of the first answer that ends a wait loop, if any. */
  function FirstDecisive<A>(answers: seq<A>, waiting: A -> bool): (r: Option<nat>)
    ensures r.Some? ==> r.value < |answers| && !waiting(answers[r.value])
    ensures r.Some? ==> forall j :: 0 <= j < r.value ==> waiting(answers[j])
    ensures r.None? ==> forall j :: 0 <= j < |answers| ==> waiting(answers[j])
  {
    if |answers| == 0 then None
    else if !waiting(answers[0]) then Some(0)
    else match FirstDecisive(answers[1..], waiting)
      case None => None
      case Some(k) => Some(k + 1)
  }

  /** The first answer that ends the wait is the one at `k`. */
  lemma {:induction false} FirstDecisiveAt<A>(answers: seq<A>, waiting: A -> bool, k: nat)
    requires k < |answers| && !waiting(answers[k])
    requires forall j :: 0 <= j < k ==> waiting(answers[j])
    ensures FirstDecisive(answers, waiting) == Some(k)
  {
    if k > 0 {
      FirstDecisiveAt(answers[1..], waiting, k - 1);
    }
  }

  /** No answer ends the wait. */
  lemma {:induction false} NoneDecisive<A>(answers: seq<A>, waiting: A -> bool)
    requires forall j :: 0 <= j < |answers| ==> waiting(answers[j])
    ensures FirstDecisive(answers, waiting).None?
  {
    if |answers| > 0 {
      NoneDecisive(answers[1..], waiting);
    }
  }

  /** What a wait loop logs: one round per answer that says "keep waiting",
      then the deciding poll, with no sleep after it. When every answer
      says "keep waiting" the loop is still running after the last one. */
  function PollLog<A>(poll: Kubectl, answers: seq<A>, waiting: A -> bool): seq<Kubectl> {
    match FirstDecisive(answers, waiting)
    case None => Rounds(poll, |answers|)
    case Some(k) => Rounds(poll, k) + [poll]
  }

  /** The number of sleeps in a log. */
  function SleepCount(log: seq<Kubectl>): nat {
    if |log| == 0 then 0
    else SleepCount(log[..|log| - 1]) + (if log[|log| - 1].Sleep? then 1 else 0)
  }

  lemma SleepCountAppend(a: seq<Kubectl>, b: seq<Kubectl>)
    ensures SleepCount(a + b) == SleepCount(a) + SleepCount(b)
    decreases |b|
  {
    if |b| > 0 {
      assert (a + b)[..|a + b| - 1] == a + b[..|b| - 1];
      SleepCountAppend(a, b[..|b| - 1]);
    } else {
      assert a + b == a;
    }
  }

  /** `n` rounds sleep exactly `n` times, and take `2n` log entries. */
  lemma {:induction false} RoundsSleeps(poll: Kubectl, n: nat)
    requires !poll.Sleep?
    ensures SleepCount(Rounds(poll, n)) == n
    ensures |Rounds(poll, n)| == 2 * n
  {
    if n > 0 {
      RoundsSleeps(poll, n - 1);
      SleepCountAppend(Rounds(poll, n - 1), [poll, Sleep(PollInterval)]);
      assert SleepCount([poll, Sleep(PollInterval)]) == 1 by {
        assert [poll, Sleep(PollInterval)][..1] == [poll];
        assert [poll][..0] == [];
        assert SleepCount([poll]) == 0;
      }
    }
  }

  /** With `k` "keep waiting" answers before the deciding one, a wait loop
      sleeps exactly `k` times and polls `k + 1` times, ending on the poll. */
  lemma PollLogSleeps<A>(poll: Kubectl, answers: seq<A>, waiting: A -> bool)
    requires !poll.Sleep?
    ensures FirstDecisive(answers, waiting).Some? ==>
      var k := FirstDecisive(answers, waiting).value;
      SleepCount(PollLog(poll, answers, waiting)) == k
      && |PollLog(poll, answers, waiting)| == 2 * k + 1
      && PollLog(poll, answers, waiting)[2 * k] == poll
    ensures FirstDecisive(answers, waiting).None? ==>
      SleepCount(PollLog(poll, answers, waiting)) == |answers|
  {
    match FirstDecisive(answers, waiting)
    case None => RoundsSleeps(poll, |answers|);
    case Some(k) =>
      RoundsSleeps(poll, k);
      SleepCountAppend(Rounds(poll, k), [poll]);
      assert [poll][..0] == [];
  }
}
