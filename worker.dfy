/** `executor/src/worker.py`: an agent turns a job message into a Kubernetes
    job config by filling in its job template, creates the job with
    `kubectl`, and records the outcome with `save_job_status`. */
module Worker {
  import opened Common
  import opened Yaml
  import opened Util
  import opened Shell

  /** Why building the job config raises: a missing message key (`KeyError`),
      a template without a field it assigns into, inputs or outputs that
      are not mappings (`TypeError` from `|`), or a mountpoint key that does
      not unpack into two names (`ValueError`). */
  datatype WorkerError = MissingKey(key: string) | TemplateLacksField | NotMappings | Unpack(key: string)

  /** How an f-string renders a loaded YAML scalar. */
  function Text(v: Value): string {
    match v
    case Str(s) => s
    case Int(i) => IntToString(i)
    case Bool(b) => if b then "True" else "False"
    case Null => "None"
    case _ => "<collection>"
  }

  const MetadataName: Path := [Key("metadata"), Key("name")]
  /** `['spec']['template']['spec']['containers'][0]`. */
  const FirstContainer: Path := [Key("spec"), Key("template"), Key("spec"), Key("containers"), At(0)]

  // Paths inside the container.
  const NamePath: Path := [Key("name")]
  const ImagePath: Path := [Key("image")]
  const CommandPath: Path := [Key("command")]
  const RequestsCpu: Path := [Key("resources"), Key("requests"), Key("cpu")]
  const RequestsMemory: Path := [Key("resources"), Key("requests"), Key("memory")]
  const LimitsCpu: Path := [Key("resources"), Key("limits"), Key("cpu")]
  const LimitsMemory: Path := [Key("resources"), Key("limits"), Key("memory")]
  const VolumeMountsPath: Path := [Key("volumeMounts")]

  const DefaultCpu: Value := Str("1")
  const DefaultMemory: Value := Str("256Mi")

  /** The container's name, image and command. */
  function NamedContainer(container: Value, request: seq<(string, Value)>, id: Value): Result<Value, WorkerError> {
    match Set(container, NamePath, Str(Text(id) + "-container1"))
    case None => Err(TemplateLacksField)
    case Some(c1) =>
      match Lookup(request, "image")
      case None => Err(MissingKey("image"))
      case Some(image) =>
        match Set(c1, ImagePath, image)
        case None => Err(TemplateLacksField)
        case Some(c2) =>
          match Lookup(request, "command")
          case None => Err(MissingKey("command"))
          case Some(command) =>
            match Set(c2, CommandPath, command)
            case None => Err(TemplateLacksField)
            case Some(c3) => Ok(c3)
  }

  /** The four resource fields, each read from a flat dotted key of the
      message. The memory limit reads the key of the memory request. */
  function ResourcedContainer(c: Value, request: seq<(string, Value)>): Result<Value, WorkerError> {
    match Set(c, RequestsCpu, GetDictValueOrDefault(request, "resources.requests.cpu", DefaultCpu))
    case None => Err(TemplateLacksField)
    case Some(c1) =>
      match Set(c1, RequestsMemory, GetDictValueOrDefault(request, "resources.requests.memory", DefaultMemory))
      case None => Err(TemplateLacksField)
      case Some(c2) =>
        match Set(c2, LimitsCpu, GetDictValueOrDefault(request, "resources.limits.cpu", DefaultCpu))
        case None => Err(TemplateLacksField)
        case Some(c3) =>
          match Set(c3, LimitsMemory, GetDictValueOrDefault(request, "resources.requests.memory", DefaultMemory))
          case None => Err(TemplateLacksField)
          case Some(c4) => Ok(c4)
  }

  /** `a | b` on two dicts: `a`, updated with every entry of `b` in order. */
  function Merge(a: seq<(string, Value)>, b: seq<(string, Value)>): seq<(string, Value)>
    decreases |b|
  {
    if |b| == 0 then a else Merge(Store(a, b[0].0, b[0].1), b[1..])
  }

  /** One loop iteration: iterating the merged dict yields its keys, and
      `mount_path, pvc_name = key` splits the key into its characters. */
  function MountOf(key: string): Result<Value, WorkerError> {
    if |key| == 2 then Ok(Dict([("name", Str([key[1]])), ("mountPath", Str([key[0]]))]))
    else Err(Unpack(key))
  }

  /** The volume mounts of the merged entries, or the first key that does
      not unpack. */
  function MountsOf(e: seq<(string, Value)>): Result<seq<Value>, WorkerError> {
    if |e| == 0 then Ok([])
    else
      match MountsOf(e[..|e| - 1])
      case Err(x) => Err(x)
      case Ok(ms) =>
        match MountOf(e[|e| - 1].0)
        case Err(x) => Err(x)
        case Ok(m) => Ok(ms + [m])
  }

  /** The mount list succeeds exactly when every key has two characters, and
      then holds one mount per key, in order. */
  lemma {:induction false} MountsOfShape(e: seq<(string, Value)>)
    ensures MountsOf(e).Ok? <==> forall i :: 0 <= i < |e| ==> |e[i].0| == 2
    ensures MountsOf(e).Ok? ==>
      |MountsOf(e).value| == |e| && forall i :: 0 <= i < |e| ==> MountsOf(e).value[i] == MountOf(e[i].0).value
  {
    if |e| > 0 {
      MountsOfShape(e[..|e| - 1]);
      assert forall i :: 0 <= i < |e| - 1 ==> e[..|e| - 1][i] == e[i];
    }
  }

  /** The mounts for a message: both `inputs` and `outputs` must be present
      and be mappings. */
  function VolumeMountsFor(request: seq<(string, Value)>): Result<seq<Value>, WorkerError> {
    match Lookup(request, "inputs")
    case None => Err(MissingKey("inputs"))
    case Some(inputs) =>
      match Lookup(request, "outputs")
      case None => Err(MissingKey("outputs"))
      case Some(outputs) =>
        if inputs.Dict? && outputs.Dict? then MountsOf(Merge(inputs.entries, outputs.entries))
        else Err(NotMappings)
  }

  /** The whole container update, in the order of the source. */
  function FilledContainer(container: Value, request: seq<(string, Value)>, id: Value): Result<Value, WorkerError> {
    match NamedContainer(container, request, id)
    case Err(x) => Err(x)
    case Ok(c1) =>
      match ResourcedContainer(c1, request)
      case Err(x) => Err(x)
      case Ok(c2) =>
        match VolumeMountsFor(request)
        case Err(x) => Err(x)
        case Ok(mounts) =>
          match Set(c2, VolumeMountsPath, List(mounts))
          case None => Err(TemplateLacksField)
          case Some(c3) => Ok(c3)
  }

  /** `create_job_config` on a given template. */
  function JobConfig(request: seq<(string, Value)>, template: Value): Result<Value, WorkerError> {
    match Lookup(request, "job_id")
    case None => Err(MissingKey("job_id"))
    case Some(id) =>
      match Set(template, MetadataName, id)
      case None => Err(TemplateLacksField)
      case Some(c1) =>
        match Get(c1, FirstContainer)
        case None => Err(TemplateLacksField)
        case Some(container) =>
          match FilledContainer(container, request, id)
          case Err(x) => Err(x)
          case Ok(filled) =>
            match Set(c1, FirstContainer, filled)
            case None => Err(TemplateLacksField)
            case Some(config) => Ok(config)
  }

  /** The volume-mount loop. */
  method BuildVolumeMounts(e: seq<(string, Value)>) returns (r: Result<seq<Value>, WorkerError>)
    ensures r == MountsOf(e)
  {
    var mounts: seq<Value> := [];
    var i := 0;
    while i < |e|
      invariant 0 <= i <= |e|
      invariant MountsOf(e[..i]) == Ok(mounts)
    {
      assert e[..i + 1][..i] == e[..i];
      var key := e[i].0;
      if |key| != 2 {
        assert MountsOf(e[..i + 1]) == Err(Unpack(key));
        MountErrorPersists(e, i + 1, Unpack(key));
        return Err(Unpack(key));
      }
      mounts := mounts + [Dict([("name", Str([key[1]])), ("mountPath", Str([key[0]]))])];
      i := i + 1;
    }
    assert e[..|e|] == e;
    r := Ok(mounts);
  }

  /** An error in a prefix is the error of the whole. */
  lemma {:induction false} MountErrorPersists(e: seq<(string, Value)>, n: nat, x: WorkerError)
    requires n <= |e| && MountsOf(e[..n]) == Err(x)
    ensures MountsOf(e) == Err(x)
    decreases |e| - n
  {
    if n < |e| {
      assert e[..n + 1][..n] == e[..n];
      MountErrorPersists(e, n + 1, x);
    } else {
      assert e[..n] == e;
    }
  }

  /** `create_job_config`, updating the config and the container step by step. */
  method CreateJobConfig(request: seq<(string, Value)>, template: Value) returns (r: Result<Value, WorkerError>)
    ensures r == JobConfig(request, template)
  {
    var id := Lookup(request, "job_id");
    if id.None? { return Err(MissingKey("job_id")); }
    var config := Set(template, MetadataName, id.value);
    if config.None? { return Err(TemplateLacksField); }
    var container := Get(config.value, FirstContainer);
    if container.None? { return Err(TemplateLacksField); }
    var named := NamedContainer(container.value, request, id.value);
    if named.Err? { return Err(named.error); }
    var resourced := ResourcedContainer(named.value, request);
    if resourced.Err? { return Err(resourced.error); }
    var inputs := Lookup(request, "inputs");
    if inputs.None? { return Err(MissingKey("inputs")); }
    var outputs := Lookup(request, "outputs");
    if outputs.None? { return Err(MissingKey("outputs")); }
    if !inputs.value.Dict? || !outputs.value.Dict? { return Err(NotMappings); }
    var mounts := BuildVolumeMounts(Merge(inputs.value.entries, outputs.value.entries));
    if mounts.Err? { return Err(mounts.error); }
    var filled := Set(resourced.value, VolumeMountsPath, List(mounts.value));
    if filled.None? { return Err(TemplateLacksField); }
    var updated := Set(config.value, FirstContainer, filled.value);
    if updated.None? { return Err(TemplateLacksField); }
    r := Ok(updated.value);
  }

  // ---------------------------------------------------------------------
  // What the config holds

  /** Reading along `p + q` is reading `q` in what lies at `p`. */
  lemma {:induction false} GetConcat(v: Value, p: Path, q: Path)
    ensures Get(v, p + q) == (match Get(v, p) case None => None case Some(w) => Get(w, q))
    decreases |p|
  {
    if |p| > 0 {
      assert (p + q)[1..] == p[1..] + q;
      assert (p + q)[0] == p[0];
      match Child(v, p[0])
      case None =>
      case Some(c) => GetConcat(c, p[1..], q);
    } else {
      assert p + q == q;
    }
  }

  /** The name, image and command the container gets. */
  lemma NamedContents(container: Value, request: seq<(string, Value)>, id: Value, q: Path)
    requires NamedContainer(container, request, id).Ok?
    ensures var c := NamedContainer(container, request, id).value;
      && Get(c, NamePath) == Some(Str(Text(id) + "-container1"))
      && Get(c, ImagePath) == Lookup(request, "image")
      && Get(c, CommandPath) == Lookup(request, "command")
      && (Diverge(NamePath, q) && Diverge(ImagePath, q) && Diverge(CommandPath, q) ==> Get(c, q) == Get(container, q))
  {
    var c1 := Set(container, NamePath, Str(Text(id) + "-container1")).value;
    var c2 := Set(c1, ImagePath, Lookup(request, "image").value).value;
    var c3 := Set(c2, CommandPath, Lookup(request, "command").value).value;
    GetSet(container, NamePath, Str(Text(id) + "-container1"), q);
    GetSet(c1, ImagePath, Lookup(request, "image").value, q);
    GetSet(c2, CommandPath, Lookup(request, "command").value, q);
    GetSet(c1, ImagePath, Lookup(request, "image").value, NamePath);
    GetSet(c2, CommandPath, Lookup(request, "command").value, NamePath);
    GetSet(c2, CommandPath, Lookup(request, "command").value, ImagePath);
  }

  /** The four resource fields; the memory limit equals the memory request. */
  lemma ResourcedContents(c: Value, request: seq<(string, Value)>, q: Path)
    requires ResourcedContainer(c, request).Ok?
    ensures var r := ResourcedContainer(c, request).value;
      && Get(r, RequestsCpu) == Some(GetDictValueOrDefault(request, "resources.requests.cpu", DefaultCpu))
      && Get(r, RequestsMemory) == Some(GetDictValueOrDefault(request, "resources.requests.memory", DefaultMemory))
      && Get(r, LimitsCpu) == Some(GetDictValueOrDefault(request, "resources.limits.cpu", DefaultCpu))
      && Get(r, LimitsMemory) == Get(r, RequestsMemory)
      && (Diverge(RequestsCpu, q) && Diverge(RequestsMemory, q) && Diverge(LimitsCpu, q) && Diverge(LimitsMemory, q)
          ==> Get(r, q) == Get(c, q))
  {
    var rc := GetDictValueOrDefault(request, "resources.requests.cpu", DefaultCpu);
    var rm := GetDictValueOrDefault(request, "resources.requests.memory", DefaultMemory);
    var lc := GetDictValueOrDefault(request, "resources.limits.cpu", DefaultCpu);
    var c1 := Set(c, RequestsCpu, rc).value;
    var c2 := Set(c1, RequestsMemory, rm).value;
    var c3 := Set(c2, LimitsCpu, lc).value;
    var c4 := Set(c3, LimitsMemory, rm).value;
    assert Diverge(RequestsMemory, RequestsCpu) && Diverge(LimitsCpu, RequestsCpu) && Diverge(LimitsMemory, RequestsCpu);
    assert Diverge(LimitsCpu, RequestsMemory) && Diverge(LimitsMemory, RequestsMemory) && Diverge(LimitsMemory, LimitsCpu);
    GetSet(c, RequestsCpu, rc, q);
    GetSet(c1, RequestsMemory, rm, q);
    GetSet(c2, LimitsCpu, lc, q);
    GetSet(c3, LimitsMemory, rm, q);
    GetSet(c1, RequestsMemory, rm, RequestsCpu);
    GetSet(c2, LimitsCpu, lc, RequestsCpu);
    GetSet(c3, LimitsMemory, rm, RequestsCpu);
    GetSet(c2, LimitsCpu, lc, RequestsMemory);
    GetSet(c3, LimitsMemory, rm, RequestsMemory);
    GetSet(c3, LimitsMemory, rm, LimitsCpu);
  }

  /** Every field the container gets. */
  lemma FilledContents(container: Value, request: seq<(string, Value)>, id: Value)
    requires FilledContainer(container, request, id).Ok?
    ensures var c := FilledContainer(container, request, id).value;
      && Get(c, NamePath) == Some(Str(Text(id) + "-container1"))
      && Get(c, ImagePath) == Lookup(request, "image")
      && Get(c, CommandPath) == Lookup(request, "command")
      && Get(c, RequestsCpu) == Some(GetDictValueOrDefault(request, "resources.requests.cpu", DefaultCpu))
      && Get(c, RequestsMemory) == Some(GetDictValueOrDefault(request, "resources.requests.memory", DefaultMemory))
      && Get(c, LimitsCpu) == Some(GetDictValueOrDefault(request, "resources.limits.cpu", DefaultCpu))
      && Get(c, LimitsMemory) == Get(c, RequestsMemory)
      && Get(c, VolumeMountsPath) == Some(List(VolumeMountsFor(request).value))
  {
    var c1 := NamedContainer(container, request, id).value;
    var c2 := ResourcedContainer(c1, request).value;
    var mounts := VolumeMountsFor(request).value;
    var c3 := Set(c2, VolumeMountsPath, List(mounts)).value;
    NamedContents(container, request, id, RequestsCpu);
    ResourcedContents(c1, request, NamePath);
    ResourcedContents(c1, request, ImagePath);
    ResourcedContents(c1, request, CommandPath);
    GetSet(c2, VolumeMountsPath, List(mounts), NamePath);
    GetSet(c2, VolumeMountsPath, List(mounts), ImagePath);
    GetSet(c2, VolumeMountsPath, List(mounts), CommandPath);
    GetSet(c2, VolumeMountsPath, List(mounts), RequestsCpu);
    GetSet(c2, VolumeMountsPath, List(mounts), RequestsMemory);
    GetSet(c2, VolumeMountsPath, List(mounts), LimitsCpu);
    GetSet(c2, VolumeMountsPath, List(mounts), LimitsMemory);
  }

  /** `metadata.name` is the job id, the first container is the filled one,
      and every template field outside both is as it was. */
  lemma JobConfigContents(request: seq<(string, Value)>, template: Value, q: Path)
    requires JobConfig(request, template).Ok?
    ensures var config := JobConfig(request, template).value;
            var id := Lookup(request, "job_id").value;
            var c1 := Set(template, MetadataName, id).value;
      && Get(config, MetadataName) == Some(id)
      && Get(config, FirstContainer) == Some(FilledContainer(Get(c1, FirstContainer).value, request, id).value)
      && (Diverge(MetadataName, q) && Diverge(FirstContainer, q) ==> Get(config, q) == Get(template, q))
  {
    var id := Lookup(request, "job_id").value;
    var c1 := Set(template, MetadataName, id).value;
    var filled := FilledContainer(Get(c1, FirstContainer).value, request, id).value;
    assert Diverge(FirstContainer, MetadataName);
    GetSet(template, MetadataName, id, q);
    GetSet(c1, FirstContainer, filled, q);
    GetSet(c1, FirstContainer, filled, MetadataName);
  }

  /** The container fields read through the config: the name is the job id
      with `-container1`, image and command are the message's own values,
      absent resource keys give `1`, `256Mi` and `1`, and the memory limit is
      the memory request. */
  lemma JobContainerFields(request: seq<(string, Value)>, template: Value)
    requires JobConfig(request, template).Ok?
    ensures var config := JobConfig(request, template).value;
            var id := Lookup(request, "job_id").value;
      && Get(config, FirstContainer + NamePath) == Some(Str(Text(id) + "-container1"))
      && Get(config, FirstContainer + ImagePath) == Lookup(request, "image")
      && Get(config, FirstContainer + CommandPath) == Lookup(request, "command")
      && Get(config, FirstContainer + LimitsMemory) == Get(config, FirstContainer + RequestsMemory)
      && (Lookup(request, "resources.requests.cpu").None? ==> Get(config, FirstContainer + RequestsCpu) == Some(DefaultCpu))
      && (Lookup(request, "resources.requests.memory").None? ==> Get(config, FirstContainer + RequestsMemory) == Some(DefaultMemory))
      && (Lookup(request, "resources.limits.cpu").None? ==> Get(config, FirstContainer + LimitsCpu) == Some(DefaultCpu))
  {
    var config := JobConfig(request, template).value;
    var id := Lookup(request, "job_id").value;
    var c1 := Set(template, MetadataName, id).value;
    var container := Get(c1, FirstContainer).value;
    JobConfigContents(request, template, []);
    FilledContents(container, request, id);
    GetConcat(config, FirstContainer, NamePath);
    GetConcat(config, FirstContainer, ImagePath);
    GetConcat(config, FirstContainer, CommandPath);
    GetConcat(config, FirstContainer, RequestsCpu);
    GetConcat(config, FirstContainer, RequestsMemory);
    GetConcat(config, FirstContainer, LimitsCpu);
    GetConcat(config, FirstContainer, LimitsMemory);
  }

  /** Two messages that agree on every key the config reads. */
  predicate SameReads(r1: seq<(string, Value)>, r2: seq<(string, Value)>) {
    && Lookup(r1, "job_id") == Lookup(r2, "job_id")
    && Lookup(r1, "image") == Lookup(r2, "image")
    && Lookup(r1, "command") == Lookup(r2, "command")
    && Lookup(r1, "inputs") == Lookup(r2, "inputs")
    && Lookup(r1, "outputs") == Lookup(r2, "outputs")
    && Lookup(r1, "resources.requests.cpu") == Lookup(r2, "resources.requests.cpu")
    && Lookup(r1, "resources.requests.memory") == Lookup(r2, "resources.requests.memory")
    && Lookup(r1, "resources.limits.cpu") == Lookup(r2, "resources.limits.cpu")
  }

  /** The config depends on the message only through those keys. */
  lemma SameReadsSameConfig(r1: seq<(string, Value)>, r2: seq<(string, Value)>, template: Value)
    requires SameReads(r1, r2)
    ensures JobConfig(r1, template) == JobConfig(r2, template)
  {
    match Lookup(r1, "job_id")
    case None =>
    case Some(id) =>
      match Set(template, MetadataName, id)
      case None =>
      case Some(c1) =>
        match Get(c1, FirstContainer)
        case None =>
        case Some(container) => SameReadsSameContainer(r1, r2, container, id);
  }

  /** The container update depends on the message only through those keys. */
  lemma SameReadsSameContainer(r1: seq<(string, Value)>, r2: seq<(string, Value)>, c: Value, id: Value)
    requires SameReads(r1, r2)
    ensures FilledContainer(c, r1, id) == FilledContainer(c, r2, id)
  {
    assert NamedContainer(c, r1, id) == NamedContainer(c, r2, id);
    forall c' ensures ResourcedContainer(c', r1) == ResourcedContainer(c', r2) {
      SameReadsSameResources(r1, r2, c');
    }
    assert VolumeMountsFor(r1) == VolumeMountsFor(r2);
  }

  lemma SameReadsSameResources(r1: seq<(string, Value)>, r2: seq<(string, Value)>, c: Value)
    requires SameReads(r1, r2)
    ensures ResourcedContainer(c, r1) == ResourcedContainer(c, r2)
  {
    assert GetDictValueOrDefault(r1, "resources.requests.cpu", DefaultCpu) == GetDictValueOrDefault(r2, "resources.requests.cpu", DefaultCpu);
    assert GetDictValueOrDefault(r1, "resources.requests.memory", DefaultMemory) == GetDictValueOrDefault(r2, "resources.requests.memory", DefaultMemory);
    assert GetDictValueOrDefault(r1, "resources.limits.cpu", DefaultCpu) == GetDictValueOrDefault(r2, "resources.limits.cpu", DefaultCpu);
  }

  /** A nested `resources` mapping in the message is never read: replacing
      it changes nothing. */
  lemma NestedResourcesIgnored(request: seq<(string, Value)>, template: Value, v: Value)
    ensures JobConfig(Store(request, "resources", v), template) == JobConfig(request, template)
  {
    LookupStore(request, "resources", v, "job_id");
    LookupStore(request, "resources", v, "image");
    LookupStore(request, "resources", v, "command");
    LookupStore(request, "resources", v, "inputs");
    LookupStore(request, "resources", v, "outputs");
    LookupStore(request, "resources", v, "resources.requests.cpu");
    LookupStore(request, "resources", v, "resources.requests.memory");
    LookupStore(request, "resources", v, "resources.limits.cpu");
    SameReadsSameConfig(Store(request, "resources", v), request, template);
  }

  /** Iterating the merged dict yields keys, so mountpoints of any length
      other than two characters make the config fail. */
  lemma MountpointKeysMustBePairs(request: seq<(string, Value)>, inputs: seq<(string, Value)>,
                                  outputs: seq<(string, Value)>)
    requires Lookup(request, "inputs") == Some(Dict(inputs)) && Lookup(request, "outputs") == Some(Dict(outputs))
    ensures VolumeMountsFor(request).Ok? <==>
      forall i :: 0 <= i < |Merge(inputs, outputs)| ==> |Merge(inputs, outputs)[i].0| == 2
  {
    assert VolumeMountsFor(request) == MountsOf(Merge(inputs, outputs));
    MountsOfShape(Merge(inputs, outputs));
  }

  /** With no inputs and no outputs there are no volume mounts. */
  lemma NoMountpointsNoMounts(request: seq<(string, Value)>)
    requires Lookup(request, "inputs") == Some(Dict([])) && Lookup(request, "outputs") == Some(Dict([]))
    ensures VolumeMountsFor(request) == Ok([])
  {
    assert Merge([], []) == [];
  }

  // ---------------------------------------------------------------------
  // The agent's main loop body

  /** The two `kubectl` commands of `create_job`: the create, fed the
      config, and the status query, given as the argument vector that
      `run_command` runs. */
  datatype Command = CreateJob(config: Value) | QueryJobStatus(argv: seq<string>)

  /** Why handling failed: the config could not be built, a command exited
      with an error, the job name could not be quoted, or the command line
      could not be split. */
  datatype Reason =
    | ConfigFailed(error: WorkerError)
    | CommandFailed(command: Command)
    | NameNotQuotable(name: Value)
    | SplitFailed(message: string)

  /** Python's truth value of a loaded YAML value. */
  predicate Falsy(v: Value) {
    v == Null || v == Bool(false) || v == Int(0) || v == Str("") || v == List([]) || v == Dict([])
  }

  /** `quote(job_name)` for a loaded value: `shlex.quote` answers `''` for
      any falsy value before it looks at the type, quotes a string, and
      raises for any other value. */
  function QuotedName(name: Value): (r: Option<string>)
    ensures name.Str? ==> r == Some(Quote(name.s))
    ensures !name.Str? ==> (r.Some? <==> Falsy(name))
    ensures r.Some? && Falsy(name) ==> r.value == "''"
  {
    match name
    case Str(s) => Some(Quote(s))
    case _ => if Falsy(name) then Some("''") else None
  }

  /** The output flag `create_job` passes, before quoting. */
  const JsonpathFlag := "-o=jsonpath={.status}"

  /** The status query's command line for a quoted job name:
      `f'kubectl get job {quote(job_name)} ' + quote('-o=jsonpath={.status}')`. */
  function StatusLine(quoted: string): string {
    "kubectl get job " + quoted + " " + Quote(JsonpathFlag)
  }

  /** The status query's arguments when the quoted name is one argument. */
  function StatusVector(name: string): seq<string> {
    ["kubectl", "get", "job", name, InApostrophes(JsonpathFlag)]
  }

  /** The argument vector of the status query for a job named `name`:
      `quote`, then `run_command`'s non-POSIX split; or why either raised. */
  function StatusCommand(name: Value): Result<seq<string>, Reason> {
    match QuotedName(name)
    case None => Err(NameNotQuotable(name))
    case Some(quoted) =>
      match SplitNonPosix(StatusLine(quoted))
      case Err(e) => Err(SplitFailed(e))
      case Ok(argv) => Ok(argv)
  }

  /** The flag holds braces, which `quote` does not leave alone, so it
      reaches `kubectl` in apostrophes and not as the option itself. */
  lemma FlagQuoted()
    ensures '\'' !in JsonpathFlag && !AllSafe(JsonpathFlag)
    ensures Quote(JsonpathFlag) == InApostrophes(JsonpathFlag)
    ensures InApostrophes(JsonpathFlag) != JsonpathFlag
  {
    assert !SafeChar(JsonpathFlag[12]);
    assert forall i :: 0 <= i < |JsonpathFlag| ==> JsonpathFlag[i] != '\'';
  }

  /** The status line splits into `kubectl get job`, then the arguments of
      the quoted name and the flag. */
  lemma StatusLineSplits(quoted: string, args: seq<string>)
    requires SplitNonPosix(quoted + " " + InApostrophes(JsonpathFlag)) == Ok(args)
    ensures SplitNonPosix(StatusLine(quoted)) == Ok(["kubectl", "get", "job"] + args)
  {
    KubectlWords();
    StatusLineText(quoted);
    SplitAfterWords("kubectl", "get", "job", quoted + " " + InApostrophes(JsonpathFlag), args);
  }

  lemma KubectlWords()
    ensures PlainWord("kubectl") && PlainWord("get") && PlainWord("job")
  {
  }

  /** The status line as its words and the tail after them. */
  lemma StatusLineText(quoted: string)
    ensures StatusLine(quoted)
         == "kubectl" + " " + "get" + " " + "job" + " " + (quoted + " " + InApostrophes(JsonpathFlag))
  {
    FlagQuoted();
    KubectlPrefix();
    AppendRegroupLine("kubectl get job ", quoted, Quote(JsonpathFlag));
  }

  lemma KubectlPrefix()
    ensures "kubectl get job " == "kubectl" + " " + "get" + " " + "job" + " "
  {
  }

  lemma AppendRegroupLine(p: string, x: string, y: string)
    ensures p + x + " " + y == p + (x + " " + y)
  {
  }

  /** What `kubectl` is handed for the status query, by the kind of job id:
      a non-empty string of safe characters is the job name argument as it
      is; a falsy id is the two-character argument `''`; a string with an
      unsafe character and no apostrophe is one argument in apostrophes;
      any other non-string id raises before the query. Every vector ends
      with the flag in apostrophes. */
  lemma StatusCommandShapes(name: Value)
    ensures name.Str? && name.s != "" && AllSafe(name.s) ==> StatusCommand(name) == Ok(StatusVector(name.s))
    ensures Falsy(name) ==> StatusCommand(name) == Ok(StatusVector("''"))
    ensures name.Str? && !AllSafe(name.s) && '\'' !in name.s ==>
      StatusCommand(name) == Ok(StatusVector(InApostrophes(name.s)))
    ensures !name.Str? && !Falsy(name) ==> StatusCommand(name) == Err(NameNotQuotable(name))
  {
    if name.Str? && name.s != "" && AllSafe(name.s) {
      SafeNameStatus(name.s);
    } else if Falsy(name) {
      EmptyInApostrophes();
      QuotedNameStatus(name, "");
    } else if name.Str? && !AllSafe(name.s) && '\'' !in name.s {
      QuotedNameStatus(name, name.s);
    }
  }

  /** A non-empty name of safe characters is one argument as it is. */
  lemma SafeNameStatus(s: string)
    requires s != "" && AllSafe(s)
    ensures StatusCommand(Str(s)) == Ok(StatusVector(s))
  {
    FlagQuoted();
    SafeIsPlain(s);
    SplitWordThenQuoted(s, JsonpathFlag);
    StatusLineSplits(s, [s, InApostrophes(JsonpathFlag)]);
    KubectlVector(s);
    StatusCommandOf(Str(s), s, StatusVector(s));
  }

  /** A name quoted as text in apostrophes is that one argument. */
  lemma QuotedNameStatus(name: Value, x: string)
    requires QuotedName(name) == Some(InApostrophes(x)) && '\'' !in x
    ensures StatusCommand(name) == Ok(StatusVector(InApostrophes(x)))
  {
    FlagQuoted();
    SplitQuotedThenQuoted(x, JsonpathFlag);
    StatusLineSplits(InApostrophes(x), [InApostrophes(x), InApostrophes(JsonpathFlag)]);
    KubectlVector(InApostrophes(x));
    StatusCommandOf(name, InApostrophes(x), StatusVector(InApostrophes(x)));
  }

  lemma EmptyInApostrophes()
    ensures "''" == InApostrophes("")
  {
  }

  lemma KubectlVector(w: string)
    ensures ["kubectl", "get", "job"] + [w, InApostrophes(JsonpathFlag)] == StatusVector(w)
  {
  }

  /** A job id with an apostrophe reaches `kubectl` as several arguments:
      `a'b` is quoted as `'a'"'"'b'`, which splits into `'a'`, `"'"` and
      `'b'`. */
  lemma ApostropheNameSplits(a: string, b: string)
    requires '\'' !in a && '\'' !in b
    ensures StatusCommand(Str(a + "'" + b)) == Ok(["kubectl", "get", "job",
      InApostrophes(a), QuotedApostrophe, InApostrophes(b), InApostrophes(JsonpathFlag)])
  {
    FlagQuoted();
    var quoted := InApostrophes(a) + QuotedApostrophe + InApostrophes(b);
    var args := [InApostrophes(a), QuotedApostrophe, InApostrophes(b), InApostrophes(JsonpathFlag)];
    QuoteOneApostrophe(a, b);
    SplitQuotedApostrophe(a, b, JsonpathFlag);
    StatusLineSplits(quoted, args);
    StatusCommandOf(Str(a + "'" + b), quoted, ["kubectl", "get", "job"] + args);
    KubectlArgs(args[0], args[1], args[2], args[3]);
  }

  /** The status command from the quoted name and the split line. */
  lemma StatusCommandOf(name: Value, quoted: string, argv: seq<string>)
    requires QuotedName(name) == Some(quoted) && SplitNonPosix(StatusLine(quoted)) == Ok(argv)
    ensures StatusCommand(name) == Ok(argv)
  {
  }

  lemma KubectlArgs(w: string, x: string, y: string, z: string)
    ensures ["kubectl", "get", "job"] + [w, x, y, z] == ["kubectl", "get", "job", w, x, y, z]
  {
  }

  /** What `save_job_status` is given: the job's status output, or the
      exception. */
  datatype SavedStatus = StatusOutput(text: string) | Failure(reason: Reason)

  datatype Event = Ran(command: Command) | Saved(jobId: Value, status: SavedStatus)

  /** What `create_job` issues for a built config, up to the first failure. */
  function CreateJobLog(config: Value, fails: Command -> bool): seq<Event> {
    if fails(CreateJob(config)) then [Ran(CreateJob(config))]
    else match Get(config, MetadataName)
      case None => [Ran(CreateJob(config))]
      case Some(name) =>
        match StatusCommand(name)
        case Err(_) => [Ran(CreateJob(config))]
        case Ok(argv) => [Ran(CreateJob(config)), Ran(QueryJobStatus(argv))]
  }

  /** What `create_job` returns: the job's status output, or why it raised. */
  function CreateJobResult(config: Value, fails: Command -> bool, stdout: Command -> string): Result<string, Reason> {
    if fails(CreateJob(config)) then Err(CommandFailed(CreateJob(config)))
    else match Get(config, MetadataName)
      case None => Err(ConfigFailed(TemplateLacksField))
      case Some(name) =>
        match StatusCommand(name)
        case Err(reason) => Err(reason)
        case Ok(argv) =>
          if fails(QueryJobStatus(argv)) then Err(CommandFailed(QueryJobStatus(argv)))
          else Ok(stdout(QueryJobStatus(argv)))
  }

  /** What handling a message with a job id logs. */
  function HandleLog(request: seq<(string, Value)>, template: Value, fails: Command -> bool,
                     stdout: Command -> string): seq<Event>
    requires Lookup(request, "job_id").Some?
  {
    var id := Lookup(request, "job_id").value;
    match JobConfig(request, template)
    case Err(e) => [Saved(id, Failure(ConfigFailed(e)))]
    case Ok(config) =>
      CreateJobLog(config, fails) +
      [Saved(id, match CreateJobResult(config, fails, stdout)
                 case Ok(text) => StatusOutput(text)
                 case Err(reason) => Failure(reason))]
  }

  predicate IsSave(e: Event) {
    e.Saved?
  }

  /** Handling a message saves a status exactly once, as its last step, for
      the message's job id; the status is the output of the status query
      exactly when the config was built and both commands succeeded. */
  lemma SavedOnce(request: seq<(string, Value)>, template: Value, fails: Command -> bool, stdout: Command -> string)
    requires Lookup(request, "job_id").Some?
    ensures var log := HandleLog(request, template, fails, stdout);
      && |log| > 0 && log[|log| - 1].Saved? && log[|log| - 1].jobId == Lookup(request, "job_id").value
      && (forall i :: 0 <= i < |log| - 1 ==> !IsSave(log[i]))
      && (log[|log| - 1].status.StatusOutput? <==>
          JobConfig(request, template).Ok? && CreateJobResult(JobConfig(request, template).value, fails, stdout).Ok?)
  {
  }

  /** A built config names its job, so the status query runs on the job id,
      provided the id can be quoted; one that cannot ends the handling after
      the create. */
  lemma StatusQueriedByJobId(request: seq<(string, Value)>, template: Value, fails: Command -> bool,
                             stdout: Command -> string)
    requires JobConfig(request, template).Ok?
    requires !fails(CreateJob(JobConfig(request, template).value))
    ensures |CreateJobLog(JobConfig(request, template).value, fails)| == 2
        <==> StatusCommand(Lookup(request, "job_id").value).Ok?
    ensures StatusCommand(Lookup(request, "job_id").value).Ok? ==>
      CreateJobLog(JobConfig(request, template).value, fails)[1]
         == Ran(QueryJobStatus(StatusCommand(Lookup(request, "job_id").value).value))
    ensures var id := Lookup(request, "job_id").value;
      id.Str? && id.s != "" && AllSafe(id.s) ==>
      |CreateJobLog(JobConfig(request, template).value, fails)| == 2
      && CreateJobLog(JobConfig(request, template).value, fails)[1] == Ran(QueryJobStatus(StatusVector(id.s)))
  {
    var config := JobConfig(request, template).value;
    JobConfigContents(request, template, []);
    NamedJobLog(config, fails, stdout, Lookup(request, "job_id").value);
    StatusCommandShapes(Lookup(request, "job_id").value);
  }

  lemma NamedJobLog(config: Value, fails: Command -> bool, stdout: Command -> string, id: Value)
    requires Get(config, MetadataName) == Some(id) && !fails(CreateJob(config))
    ensures StatusCommand(id).Ok? ==>
      CreateJobLog(config, fails) == [Ran(CreateJob(config)), Ran(QueryJobStatus(StatusCommand(id).value))]
    ensures StatusCommand(id).Err? ==>
      CreateJobLog(config, fails) == [Ran(CreateJob(config))]
      && CreateJobResult(config, fails, stdout) == Err(StatusCommand(id).error)
  {
  }

  /** An integer job id is created as the job's name, but quoting it raises,
      so its status is never queried; a non-empty string id of safe
      characters is queried by that name. */
  lemma NonStringIdNotQueried(config: Value, fails: Command -> bool, stdout: Command -> string, s: string)
    requires !fails(CreateJob(config))
    ensures Get(config, MetadataName) == Some(Int(5)) ==>
      CreateJobLog(config, fails) == [Ran(CreateJob(config))]
      && CreateJobResult(config, fails, stdout) == Err(NameNotQuotable(Int(5)))
    ensures Get(config, MetadataName) == Some(Str(s)) && s != "" && AllSafe(s) ==>
      CreateJobLog(config, fails) == [Ran(CreateJob(config)), Ran(QueryJobStatus(StatusVector(s)))]
  {
    assert !Falsy(Int(5));
    StatusCommandShapes(Str(s));
  }

  class Executor {
    /** `kubectl` invocations and saved statuses, in order. */
    var events: seq<Event>
    /** Which commands exit with an error, and what each prints. */
    const fails: Command -> bool
    const stdout: Command -> string

    constructor (fails: Command -> bool, stdout: Command -> string)
      ensures events == [] && this.fails == fails && this.stdout == stdout
    {
      events := [];
      this.fails := fails;
      this.stdout := stdout;
    }

    /** `run_command`: the output, or `ValueError` when the command fails. */
    method RunCommand(c: Command) returns (r: Result<string, Reason>)
      modifies this
      ensures events == old(events) + [Ran(c)]
      ensures r == if fails(c) then Err(CommandFailed(c)) else Ok(stdout(c))
    {
      events := events + [Ran(c)];
      if fails(c) {
        r := Err(CommandFailed(c));
      } else {
        r := Ok(stdout(c));
      }
    }

    /** `create_job`: create the job, then query its status by name. */
    method CreateJobFor(config: Value) returns (r: Result<string, Reason>)
      modifies this
      ensures events == old(events) + CreateJobLog(config, fails)
      ensures r == CreateJobResult(config, fails, stdout)
    {
      var created := RunCommand(CreateJob(config));
      if created.Err? {
        return Err(created.error);
      }
      var name := Get(config, MetadataName);
      if name.None? {
        return Err(ConfigFailed(TemplateLacksField));
      }
      var quoted := QuotedName(name.value);
      if quoted.None? {
        assert StatusCommand(name.value) == Err(NameNotQuotable(name.value));
        return Err(NameNotQuotable(name.value));
      }
      // `run_command` splits the line before it runs anything.
      var argv := SplitNonPosix(StatusLine(quoted.value));
      if argv.Err? {
        assert StatusCommand(name.value) == Err(SplitFailed(argv.error));
        return Err(SplitFailed(argv.error));
      }
      assert StatusCommand(name.value) == Ok(argv.value);
      r := RunCommand(QueryJobStatus(argv.value));
    }

    /** `save_job_status`, a logging stub. */
    method SaveJobStatus(id: Value, status: SavedStatus)
      modifies this
      ensures events == old(events) + [Saved(id, status)]
    {
      events := events + [Saved(id, status)];
    }

    /** `main` on a received message: without a job id it stops before doing
        anything; otherwise it builds the config, creates the job, and saves
        either the job's status output or the exception. */
    method HandleRequest(request: seq<(string, Value)>, template: Value) returns (accepted: bool)
      modifies this
      ensures accepted <==> Lookup(request, "job_id").Some?
      ensures !accepted ==> events == old(events)
      ensures accepted ==> events == old(events) + HandleLog(request, template, fails, stdout)
    {
      var id := Lookup(request, "job_id");
      if id.None? {
        return false;
      }
      accepted := true;
      var config := CreateJobConfig(request, template);
      if config.Err? {
        SaveJobStatus(id.value, Failure(ConfigFailed(config.error)));
        return;
      }
      var status := CreateJobFor(config.value);
      if status.Ok? {
        SaveJobStatus(id.value, StatusOutput(status.value));
      } else {
        SaveJobStatus(id.value, Failure(status.error));
      }
    }
  }
}
