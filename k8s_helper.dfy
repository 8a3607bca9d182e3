/** `cli/storage/k8s_helper.py`: running an S3/PVC data-transfer job on the
    cluster. The template text gets its four placeholders replaced, the job
    is created, and its status is polled until it completes. */
module K8sHelper {
  import opened Common
  import opened Yaml
  import opened Kube
  import Pvc

  // ---------------------------------------------------------------------
  // Job status

  /** `_is_job_completed` on the output of the status command: not
      completed while there is no `completionTime`; completed once there is
      one and `succeeded` holds any non-null value; a `ValueError` otherwise. */
  function IsJobCompleted(output: StatusOutput): (r: Result<bool, string>)
    ensures r == Ok(false) <==>
      output.JsonObject? && Lookup(output.entries, "completionTime").None?
    ensures r == Ok(true) <==>
      output.JsonObject? && Lookup(output.entries, "completionTime").Some?
      && Lookup(output.entries, "succeeded").Some? && Lookup(output.entries, "succeeded").value != Null
    ensures r.Err? <==>
      output.NotJson?
      || (Lookup(output.entries, "completionTime").Some?
          && (Lookup(output.entries, "succeeded").None? || Lookup(output.entries, "succeeded").value == Null))
    ensures output.NotJson? ==> r == Err("Unable to decode json output \"" + output.text + "\"")
  {
    match output
    case NotJson(text) => Err("Unable to decode json output \"" + text + "\"")
    case JsonObject(status) =>
      if Lookup(status, "completionTime").None? then Ok(false)
      else if Lookup(status, "succeeded").Some? && Lookup(status, "succeeded").value != Null then Ok(true)
      else Err("Cannot parse job status")
  }

  /** A status with a completion time counts as completed even when
      `succeeded` is 0, and one without a completion time is not completed
      whatever else it says. */
  lemma CompletionExamples(time: string, rest: seq<(string, Value)>)
    ensures IsJobCompleted(JsonObject([("completionTime", Str(time)), ("succeeded", Int(0))])) == Ok(true)
    ensures Lookup(rest, "completionTime").None? ==> IsJobCompleted(JsonObject(rest)) == Ok(false)
    ensures IsJobCompleted(JsonObject([("completionTime", Str(time)), ("succeeded", Null)])).Err?
  {
    assert |"completionTime"| != |"succeeded"|;
    var zero := [("completionTime", Str(time)), ("succeeded", Int(0))];
    assert Lookup(zero, "succeeded") == Lookup(zero[1..], "succeeded") == Some(Int(0));
    var absent := [("completionTime", Str(time)), ("succeeded", Null)];
    assert Lookup(absent, "succeeded") == Lookup(absent[1..], "succeeded") == Some(Null);
  }

  /** A status answer after which the transfer job is polled again. */
  predicate JobWaiting(a: JobPoll) {
    a.JobOutput? && IsJobCompleted(a.output) == Ok(false)
  }

  /** How the wait loop of `_run_s3_pvc_transfer_job` ends. */
  function JobOutcome(job: string, answers: seq<JobPoll>): Outcome {
    match FirstDecisive(answers, JobWaiting)
    case None => StillWaiting
    case Some(k) =>
      match answers[k]
      case JobCommandFails => Raised(CommandFailed(QueryJobStatus(job)))
      case JobOutput(output) =>
        match IsJobCompleted(output)
        case Err(m) => Raised(Message(m))
        case Ok(_) => Finished
  }

  /** The wait loop: poll the job status, stop at the first completed
      answer, sleep after each answer that says "not completed"; a
      `ValueError` from a poll leaves the loop at once. */
  method WaitForJob(cluster: Cluster, job: string) returns (r: Outcome)
    modifies cluster
    ensures cluster.log == old(cluster.log) + PollLog(QueryJobStatus(job), cluster.jobPolls(job), JobWaiting)
    ensures r == JobOutcome(job, cluster.jobPolls(job))
  {
    var answers := cluster.jobPolls(job);
    var i := 0;
    var answer: JobPoll := JobCommandFails;
    while i < |answers|
      invariant 0 <= i <= |answers|
      invariant cluster.log == old(cluster.log) + Rounds(QueryJobStatus(job), i)
      invariant forall j :: 0 <= j < i ==> JobWaiting(answers[j])
    {
      answer := cluster.PollJob(job, i);
      if !JobWaiting(answer) {
        break;
      }
      cluster.Pause();
      i := i + 1;
    }
    if i == |answers| {
      NoneDecisive(answers, JobWaiting);
      return StillWaiting;
    }
    FirstDecisiveAt(answers, JobWaiting, i);
    match answer
    case JobCommandFails => r := Raised(CommandFailed(QueryJobStatus(job)));
    case JobOutput(output) =>
      var completed := IsJobCompleted(output);
      r := if completed.Err? then Raised(Message(completed.error)) else Finished;
  }

  /** With `k` "not completed" answers before the first completed one, the
      loop polls `k + 1` times and sleeps `k` times; when that answer is an
      error instead, the loop also stops there, without polling again. */
  lemma JobWaitSleeps(job: string, answers: seq<JobPoll>, k: nat)
    requires k < |answers| && !JobWaiting(answers[k])
    requires forall j :: 0 <= j < k ==> JobWaiting(answers[j])
    ensures PollLog(QueryJobStatus(job), answers, JobWaiting) == Rounds(QueryJobStatus(job), k) + [QueryJobStatus(job)]
    ensures SleepCount(PollLog(QueryJobStatus(job), answers, JobWaiting)) == k
    ensures JobOutcome(job, answers) == Finished <==> answers[k].JobOutput? && IsJobCompleted(answers[k].output) == Ok(true)
  {
    FirstDecisiveAt(answers, JobWaiting, k);
    PollLogSleeps(QueryJobStatus(job), answers, JobWaiting);
  }

  // ---------------------------------------------------------------------
  // Placeholder substitution

  /** The placeholders, in the order the source replaces them. */
  const Placeholders: seq<string> := ["VAR_job_name", "VAR_pvc_name", "VAR_src", "VAR_dst"]

  /** Python's `s.replace(p, v)`: every non-overlapping occurrence of `p`,
      scanning from the left. */
  function Replace(s: string, p: string, v: string): string
    requires |p| > 0
    decreases |s|
  {
    if |s| < |p| then s
    else if s[..|p|] == p then v + Replace(s[|p|..], p, v)
    else [s[0]] + Replace(s[1..], p, v)
  }

  /** `p` is a substring of `s`. */
  predicate Occurs(s: string, p: string)
    decreases |s|
  {
    |s| >= |p| && (s[..|p|] == p || (|s| > 0 && Occurs(s[1..], p)))
  }

  /** The placeholders from index `i` on, replaced one after the other. */
  function SubstituteFrom(s: string, values: seq<string>, i: nat): string
    requires |values| == |Placeholders| && i <= |Placeholders|
    decreases |Placeholders| - i
  {
    if i == |Placeholders| then s
    else SubstituteFrom(Replace(s, Placeholders[i], values[i]), values, i + 1)
  }

  /** The text after all four replacements of the source. */
  function Substituted(template: string, values: seq<string>): string
    requires |values| == |Placeholders|
  {
    SubstituteFrom(template, values, 0)
  }

  /** The substitution loop of `_run_s3_pvc_transfer_job`. */
  method Substitute(template: string, values: seq<string>) returns (config: string)
    requires |values| == |Placeholders|
    ensures config == Substituted(template, values)
  {
    config := template;
    for i := 0 to |Placeholders|
      invariant SubstituteFrom(config, values, i) == Substituted(template, values)
    {
      config := Replace(config, Placeholders[i], values[i]);
    }
  }

  /** Sequential replacement can make a placeholder appear that was not in
      the template: here the value of `VAR_dst`, which does not contain
      `VAR_`, completes a `VAR_job_name` that the first replacement never saw. */
  lemma PlaceholderCanReappear(values: seq<string>)
    requires values == ["job", "pvc", "src", "VA"]
    ensures !Occurs(values[3], "VAR_")
    ensures Occurs(Substituted("VAR_dstR_job_name", values), "VAR_job_name")
  {
    var tail := "R_job_name";
    assert 'V' !in tail;
    assert Placeholders[3] + tail == "VAR_dstR_job_name";
    LastValueCompletes(tail, values);
    assert values[3] + tail == Placeholders[0];
  }

  /** A template that is `VAR_dst` followed by text without `V` comes out as
      the value of `VAR_dst` followed by that text. */
  lemma LastValueCompletes(tail: string, values: seq<string>)
    requires |values| == |Placeholders| && 'V' !in tail
    ensures Substituted(Placeholders[3] + tail, values) == values[3] + tail
  {
    var t := Placeholders[3] + tail;
    assert t[1..] == Placeholders[3][1..] + tail;
    PlaceholderFacts(3, 3);
    assert 'V' !in t[1..];
    assert t[4] == 'd';
    forall i | 0 <= i < 3
      ensures Replace(t, Placeholders[i], values[i]) == t
    {
      PlaceholderFacts(i, 3);
      LeadingVOnly(t, Placeholders[i]);
      ReplaceAbsent(t, Placeholders[i], values[i]);
    }
    SubstituteStep(t, values, 0);
    SubstituteStep(t, values, 1);
    SubstituteStep(t, values, 2);
    SubstituteStep(t, values, 3);
    ReplaceHit(Placeholders[3], tail, values[3]);
    NoVNoOccurrence(tail, Placeholders[3]);
    ReplaceAbsent(tail, Placeholders[3], values[3]);
  }

  lemma SubstituteStep(s: string, values: seq<string>, i: nat)
    requires |values| == |Placeholders| && i < |Placeholders|
    ensures SubstituteFrom(s, values, i) == SubstituteFrom(Replace(s, Placeholders[i], values[i]), values, i + 1)
  {
  }

  /** A text whose only `V` is its first character, and which does not
      start with `p`, does not contain `p`. */
  lemma LeadingVOnly(s: string, p: string)
    requires |p| > 4 && p[0] == 'V' && |s| > 0 && 'V' !in s[1..]
    requires |s| >= |p| ==> s[4] != p[4]
    ensures !Occurs(s, p)
  {
    if |s| >= |p| {
      assert s[..|p|][4] == s[4];
    }
    NoVNoOccurrence(s[1..], p);
  }

  /** Replacing a pattern that does not occur changes nothing. */
  lemma {:induction false} ReplaceAbsent(s: string, p: string, v: string)
    requires |p| > 0 && !Occurs(s, p)
    ensures Replace(s, p, v) == s
    decreases |s|
  {
    if |s| >= |p| {
      ReplaceAbsent(s[1..], p, v);
    }
  }

  lemma ReplaceHit(p: string, y: string, v: string)
    requires |p| > 0
    ensures Replace(p + y, p, v) == v + Replace(y, p, v)
  {
    assert (p + y)[..|p|] == p;
    assert (p + y)[|p|..] == y;
  }

  /** Text without a `V` is copied unchanged in front of the rest. */
  lemma {:induction false} ReplaceSkip(t: string, y: string, p: string, v: string)
    requires |p| > 0 && p[0] == 'V' && 'V' !in t
    ensures Replace(t + y, p, v) == t + Replace(y, p, v)
    decreases |t|
  {
    if |t| > 0 {
      if |t + y| < |p| {
        ReplaceShort(y, p, v);
      } else {
        assert (t + y)[..|p|][0] == t[0];
        assert (t + y)[1..] == t[1..] + y;
        ReplaceSkip(t[1..], y, p, v);
      }
    } else {
      assert t + y == y;
    }
  }

  lemma ReplaceShort(s: string, p: string, v: string)
    requires |p| > 0 && |s| < |p|
    ensures Replace(s, p, v) == s
  {
  }

  /** Each placeholder holds one `V`, at its start, and two different
      placeholders differ at index 4. */
  lemma PlaceholderFacts(i: nat, j: nat)
    requires i < |Placeholders| && j < |Placeholders|
    ensures |Placeholders[i]| >= 7 && Placeholders[i][0] == 'V' && 'V' !in Placeholders[i][1..]
    ensures i != j ==> Placeholders[i][4] != Placeholders[j][4]
  {
    assert Placeholders[0][1..] == "AR_job_name";
    assert Placeholders[1][1..] == "AR_pvc_name";
    assert Placeholders[2][1..] == "AR_src";
    assert Placeholders[3][1..] == "AR_dst";
  }

  /** Another placeholder is copied unchanged in front of the rest. */
  lemma ReplaceOther(i: nat, j: nat, y: string, v: string)
    requires i < |Placeholders| && j < |Placeholders| && i != j
    ensures Replace(Placeholders[i] + y, Placeholders[j], v) == Placeholders[i] + Replace(y, Placeholders[j], v)
  {
    var q, p := Placeholders[i], Placeholders[j];
    PlaceholderFacts(i, j);
    PlaceholderFacts(j, i);
    var s := q + y;
    if |s| < |p| {
      ReplaceShort(s, p, v);
      ReplaceShort(y, p, v);
    } else {
      assert s[..|p|] != p by {
        assert s[..|p|][4] == q[4];
      }
      assert Replace(s, p, v) == [s[0]] + Replace(s[1..], p, v);
      assert s[1..] == q[1..] + y;
      ReplaceSkip(q[1..], y, p, v);
      assert [q[0]] + q[1..] == q;
    }
  }

  /** A template written as literal text and placeholder tokens. */
  datatype Piece = Literal(text: string) | Token(index: nat)

  /** No literal contains a `V` and every token names one of the four placeholders. */
  predicate WellFormed(pieces: seq<Piece>) {
    forall k :: 0 <= k < |pieces| ==>
      (pieces[k].Literal? ==> 'V' !in pieces[k].text)
      && (pieces[k].Token? ==> pieces[k].index < |Placeholders|)
  }

  /** The text of a piece once the placeholders before index `j` have been
      replaced by their values. */
  function PieceText(piece: Piece, values: seq<string>, j: nat): string
    requires |values| == |Placeholders|
  {
    match piece
    case Literal(t) => t
    case Token(i) => if i >= |Placeholders| then "" else if i < j then values[i] else Placeholders[i]
  }

  function Render(pieces: seq<Piece>, values: seq<string>, j: nat): string
    requires |values| == |Placeholders|
  {
    if |pieces| == 0 then "" else PieceText(pieces[0], values, j) + Render(pieces[1..], values, j)
  }

  /** The template text of the pieces. */
  function Template(pieces: seq<Piece>): string {
    Render(pieces, Placeholders, 0)
  }

  /** Every token replaced by its value at once. */
  function Expand(pieces: seq<Piece>, values: seq<string>): string
    requires |values| == |Placeholders|
  {
    Render(pieces, values, |Placeholders|)
  }

  lemma {:induction false} TemplateRender(pieces: seq<Piece>, values: seq<string>)
    requires |values| == |Placeholders|
    ensures Render(pieces, values, 0) == Template(pieces)
  {
    if |pieces| > 0 {
      TemplateRender(pieces[1..], values);
    }
  }

  /** One replacement turns the tokens of placeholder `j` into its value and
      leaves everything else as it is. */
  lemma {:induction false} ReplaceStep(pieces: seq<Piece>, values: seq<string>, j: nat)
    requires |values| == |Placeholders| && j < |Placeholders| && WellFormed(pieces)
    requires forall i :: 0 <= i < |values| ==> 'V' !in values[i]
    ensures Replace(Render(pieces, values, j), Placeholders[j], values[j]) == Render(pieces, values, j + 1)
  {
    PlaceholderFacts(j, j);
    var p := Placeholders[j];
    if |pieces| == 0 {
      ReplaceShort("", p, values[j]);
    } else {
      assert WellFormed(pieces[1..]) by {
        forall k | 0 <= k < |pieces[1..]| ensures
          (pieces[1..][k].Literal? ==> 'V' !in pieces[1..][k].text)
          && (pieces[1..][k].Token? ==> pieces[1..][k].index < |Placeholders|)
        {
          assert pieces[1..][k] == pieces[k + 1];
        }
      }
      ReplaceStep(pieces[1..], values, j);
      var rest := Render(pieces[1..], values, j);
      assert Render(pieces, values, j) == PieceText(pieces[0], values, j) + rest;
      match pieces[0]
      case Literal(t) =>
        assert 'V' !in t;
        ReplaceSkip(t, rest, p, values[j]);
      case Token(i) =>
        assert i < |Placeholders|;
        if i < j {
          ReplaceSkip(values[i], rest, p, values[j]);
        } else if i == j {
          ReplaceHit(p, rest, values[j]);
        } else {
          ReplaceOther(i, j, rest, values[j]);
        }
    }
  }

  lemma {:induction false} SubstituteFromRender(pieces: seq<Piece>, values: seq<string>, j: nat)
    requires |values| == |Placeholders| && j <= |Placeholders| && WellFormed(pieces)
    requires forall i :: 0 <= i < |values| ==> 'V' !in values[i]
    ensures SubstituteFrom(Render(pieces, values, j), values, j) == Expand(pieces, values)
    decreases |Placeholders| - j
  {
    if j < |Placeholders| {
      ReplaceStep(pieces, values, j);
      SubstituteFromRender(pieces, values, j + 1);
    }
  }

  lemma {:induction false} ExpandNoV(pieces: seq<Piece>, values: seq<string>)
    requires |values| == |Placeholders| && WellFormed(pieces)
    requires forall i :: 0 <= i < |values| ==> 'V' !in values[i]
    ensures 'V' !in Expand(pieces, values)
  {
    if |pieces| > 0 {
      assert WellFormed(pieces[1..]) by {
        forall k | 0 <= k < |pieces[1..]| ensures
          (pieces[1..][k].Literal? ==> 'V' !in pieces[1..][k].text)
          && (pieces[1..][k].Token? ==> pieces[1..][k].index < |Placeholders|)
        {
          assert pieces[1..][k] == pieces[k + 1];
        }
      }
      ExpandNoV(pieces[1..], values);
      assert Expand(pieces, values) == PieceText(pieces[0], values, |Placeholders|) + Expand(pieces[1..], values);
    }
  }

  lemma {:induction false} NoVNoOccurrence(s: string, p: string)
    requires |p| > 0 && p[0] == 'V' && 'V' !in s
    ensures !Occurs(s, p)
    decreases |s|
  {
    if |s| >= |p| {
      assert s[..|p|][0] == s[0];
      NoVNoOccurrence(s[1..], p);
    }
  }

  /** For a template of literal text without `V` and placeholder tokens, and
      values without `V`, the four sequential replacements equal replacing
      every token at once, and no placeholder is left in the result. */
  lemma SubstitutionIsSimultaneous(pieces: seq<Piece>, values: seq<string>, k: nat)
    requires |values| == |Placeholders| && WellFormed(pieces) && k < |Placeholders|
    requires forall i :: 0 <= i < |values| ==> 'V' !in values[i]
    ensures Substituted(Template(pieces), values) == Expand(pieces, values)
    ensures !Occurs(Substituted(Template(pieces), values), Placeholders[k])
  {
    TemplateRender(pieces, values);
    SubstituteFromRender(pieces, values, 0);
    ExpandNoV(pieces, values);
    PlaceholderFacts(k, k);
    NoVNoOccurrence(Expand(pieces, values), Placeholders[k]);
  }

  // ---------------------------------------------------------------------
  // The helper

  const JobNamePrefix := "s3-pvc-transfer-"

  /** The key of the transfer template in the helper's template table. */
  const TransferTemplate := "s3_pvc_transfer"

  /** `x.split(':', 2)` unpacked into two names: the text has exactly one
      colon, the PVC name before it and the path inside the PVC after it. */
  function SplitPvcLocator(s: string): (r: Result<(string, string), string>)
    ensures r.Ok? <==> CountChar(s, ':') == 1
    ensures r.Ok? ==> s == r.value.0 + ":" + r.value.1 && ':' !in r.value.0 && ':' !in r.value.1
  {
    match IndexOf(s, ':')
    case None =>
      CountAbsent(s, ':');
      Err("not enough values to unpack")
    case Some(i) =>
      var rest := s[i + 1..];
      CountAt(s, i, ':');
      CountAbsent(s[..i], ':');
      if ':' in rest then
        CountPresent(rest, ':');
        Err("too many values to unpack")
      else
        CountAbsent(rest, ':');
        assert s == s[..i] + ":" + rest;
        Ok((s[..i], rest))
  }

  lemma {:induction false} CountAbsent(s: string, c: char)
    ensures c !in s <==> CountChar(s, c) == 0
  {
    if |s| > 0 {
      CountAbsent(s[1..], c);
      assert c in s <==> s[0] == c || c in s[1..];
    }
  }

  lemma CountPresent(s: string, c: char)
    requires c in s
    ensures CountChar(s, c) >= 1
  {
    CountAbsent(s, c);
  }

  /** `int(size * 1.2)`, in exact integer arithmetic truncated toward zero
      as Python's `int` truncates. */
  function GrownSize(size: int): (r: int)
    ensures size >= 0 ==> size <= r && 10 * r <= 12 * size < 10 * r + 10
  {
    if size >= 0 then size * 12 / 10 else -((-size) * 12 / 10)
  }

  /** The manifest a transfer job is created from. */
  function TransferManifest(template: string, job: string, pvc: string, src: string, dst: string): string {
    Substituted(template, [job, pvc, src, dst])
  }

  /** The commands a transfer job issues: the create, then the wait loop
      when the create succeeds. */
  function TransferLog(manifest: string, job: string, fails: Kubectl -> bool, answers: seq<JobPoll>): seq<Kubectl> {
    [Create(Text(manifest))]
      + (if fails(Create(Text(manifest))) then [] else PollLog(QueryJobStatus(job), answers, JobWaiting))
  }

  function TransferOutcome(manifest: string, job: string, fails: Kubectl -> bool, answers: seq<JobPoll>): Outcome {
    if fails(Create(Text(manifest))) then Raised(CommandFailed(Create(Text(manifest))))
    else JobOutcome(job, answers)
  }

  class Helper {
    /** The job templates by name, as loaded when the helper is made. */
    const templates: map<string, string>
    const cluster: Cluster
    /** `pvc.py`'s PVC template and storage classes, used to create a missing PVC. */
    const pvcTemplate: Value
    const pvcClasses: seq<Pvc.PvcStorageClass>

    predicate Valid() {
      TransferTemplate in templates
    }

    constructor (transferTemplate: string, cluster: Cluster, pvcTemplate: Value,
                 pvcClasses: seq<Pvc.PvcStorageClass>)
      ensures Valid() && templates == map[TransferTemplate := transferTemplate]
      ensures this.cluster == cluster && this.pvcTemplate == pvcTemplate && this.pvcClasses == pvcClasses
    {
      templates := map[TransferTemplate := transferTemplate];
      this.cluster := cluster;
      this.pvcTemplate := pvcTemplate;
      this.pvcClasses := pvcClasses;
    }

    /** `_run_s3_pvc_transfer_job`: name the job from the random suffix,
        substitute the template, create the job, and wait for it. */
    method RunTransferJob(pvc: string, src: string, dst: string, random: string)
      returns (job: string, r: Outcome)
      requires Valid()
      modifies cluster
      ensures job == JobNamePrefix + random
      ensures var manifest := TransferManifest(templates[TransferTemplate], job, pvc, src, dst);
        && cluster.log == old(cluster.log) + TransferLog(manifest, job, cluster.fails, cluster.jobPolls(job))
        && r == TransferOutcome(manifest, job, cluster.fails, cluster.jobPolls(job))
    {
      job := JobNamePrefix + random;
      var config := Substitute(templates[TransferTemplate], [job, pvc, src, dst]);
      var create := Create(Text(config));
      var ok := cluster.Run(create);
      if !ok {
        return job, Raised(CommandFailed(create));
      }
      r := WaitForJob(cluster, job);
    }

    /** `sync_s3_to_pvc`: split the destination, create the PVC with 1.2
        times the size when it does not exist, then run the job as (PVC,
        source, path inside the PVC). */
    method SyncS3ToPvc(src: string, dst: string, size: int, random: string) returns (r: Outcome)
      requires Valid()
      modifies cluster
      ensures SplitPvcLocator(dst).Err? ==>
        r == Raised(Message(SplitPvcLocator(dst).error)) && cluster.log == old(cluster.log)
      ensures SplitPvcLocator(dst).Ok? ==>
        var (pvc, path) := SplitPvcLocator(dst).value;
        var job := JobNamePrefix + random;
        var manifest := TransferManifest(templates[TransferTemplate], job, pvc, src, path);
        var answers := cluster.jobPolls(job);
        var config := Pvc.PvcConfig(pvcTemplate, pvcClasses, pvc, IntToString(GrownSize(size)),
                                    Pvc.DefaultRegion, Pvc.DefaultFilesystemType);
        var creation := Pvc.CreationOutcome(config, pvc, cluster.fails, cluster.pvcPolls(pvc));
        if cluster.pvcExists(pvc) then
          cluster.log == old(cluster.log) + TransferLog(manifest, job, cluster.fails, answers)
          && r == TransferOutcome(manifest, job, cluster.fails, answers)
        else if creation != Finished then
          cluster.log == old(cluster.log) + Pvc.CreationLog(config, pvc, cluster.fails, cluster.pvcPolls(pvc))
          && r == creation
        else
          cluster.log == old(cluster.log) + Pvc.CreationLog(config, pvc, cluster.fails, cluster.pvcPolls(pvc))
            + TransferLog(manifest, job, cluster.fails, answers)
          && r == TransferOutcome(manifest, job, cluster.fails, answers)
    {
      var split := SplitPvcLocator(dst);
      if split.Err? {
        return Raised(Message(split.error));
      }
      var (pvc, path) := split.value;
      if !cluster.pvcExists(pvc) {
        var created := Pvc.CreatePvc(cluster, pvcTemplate, pvcClasses, pvc, IntToString(GrownSize(size)),
                                     Pvc.DefaultRegion, Pvc.DefaultFilesystemType);
        if created != Finished {
          return created;
        }
      }
      var job;
      job, r := RunTransferJob(pvc, src, path, random);
    }

    /** `sync_pvc_to_s3`: split the source and run the job as (PVC, path
        inside the PVC, destination); no PVC is ever created. */
    method SyncPvcToS3(src: string, dst: string, random: string) returns (r: Outcome)
      requires Valid()
      modifies cluster
      ensures SplitPvcLocator(src).Err? ==>
        r == Raised(Message(SplitPvcLocator(src).error)) && cluster.log == old(cluster.log)
      ensures SplitPvcLocator(src).Ok? ==>
        var (pvc, path) := SplitPvcLocator(src).value;
        var job := JobNamePrefix + random;
        var manifest := TransferManifest(templates[TransferTemplate], job, pvc, path, dst);
        cluster.log == old(cluster.log) + TransferLog(manifest, job, cluster.fails, cluster.jobPolls(job))
        && r == TransferOutcome(manifest, job, cluster.fails, cluster.jobPolls(job))
    {
      var split := SplitPvcLocator(src);
      if split.Err? {
        return Raised(Message(split.error));
      }
      var (pvc, path) := split.value;
      var job;
      job, r := RunTransferJob(pvc, path, dst, random);
    }

    /** `sync_pvc_to_pvc`: not implemented; it always raises and issues nothing. */
    method SyncPvcToPvc(src: string, dst: string) returns (r: Outcome)
      ensures r == Raised(Message("Currently not implemented"))
    {
      r := Raised(Message("Currently not implemented"));
    }
  }

  /** The only creation a transfer makes is the job itself (and, from
      S3 to a missing PVC, the PVC): going from a PVC to S3 never creates a
      PVC document. */
  lemma PvcToS3CreatesOnlyTheJob(manifest: string, job: string, fails: Kubectl -> bool,
                                 answers: seq<JobPoll>, k: nat)
    requires k < |TransferLog(manifest, job, fails, answers)|
    requires TransferLog(manifest, job, fails, answers)[k].Create?
    ensures k == 0 && TransferLog(manifest, job, fails, answers)[k] == Create(Text(manifest))
  {
    var poll := QueryJobStatus(job);
    if !fails(Create(Text(manifest))) {
      var p := PollLog(poll, answers, JobWaiting);
      if k > 0 {
        assert TransferLog(manifest, job, fails, answers)[k] == p[k - 1];
        PollLogOnlyPolls(poll, answers, JobWaiting, k - 1);
      }
    }
  }

  /** A wait loop issues only polls and sleeps. */
  lemma PollLogOnlyPolls<A>(poll: Kubectl, answers: seq<A>, waiting: A -> bool, k: nat)
    requires k < |PollLog(poll, answers, waiting)|
    ensures PollLog(poll, answers, waiting)[k] in {poll, Sleep(PollInterval)}
  {
    match FirstDecisive(answers, waiting)
    case None => RoundsOnlyPolls(poll, |answers|, k);
    case Some(n) => if k < |Rounds(poll, n)| { RoundsOnlyPolls(poll, n, k); }
  }

  lemma {:induction false} RoundsOnlyPolls(poll: Kubectl, n: nat, k: nat)
    requires k < |Rounds(poll, n)|
    ensures Rounds(poll, n)[k] in {poll, Sleep(PollInterval)}
  {
    if n > 0 && k < |Rounds(poll, n - 1)| {
      RoundsOnlyPolls(poll, n - 1, k);
    }
  }
}
