/** `cli/storage/pvc.py`: the Nautilus PVC storage classes, building a PVC
    config from the template, creating a PVC and waiting until it is bound,
    and the small command-line front end (create, delete, list). */
module Pvc {
  import opened Common
  import opened Yaml
  import opened Kube

  /** One row of the storage-class table. */
  datatype PvcStorageClass = PvcStorageClass(
    storageClass: string,
    filesystemType: string,
    region: string,
    accessModes: string,
    restrictions: string,
    storageType: string,
    size: string)

  // ---------------------------------------------------------------------
  // Loading the table

  /** The rows kept by the loader: those with an empty `Restrictions` field,
      in table order. */
  function Unrestricted(rows: seq<PvcStorageClass>): seq<PvcStorageClass> {
    if |rows| == 0 then [] else
      var last := rows[|rows| - 1];
      Unrestricted(rows[..|rows| - 1]) + (if last.restrictions == "" then [last] else [])
  }

  /** The filter keeps a row exactly when its restrictions are empty. */
  lemma {:induction false} UnrestrictedMembers(rows: seq<PvcStorageClass>, c: PvcStorageClass)
    ensures c in Unrestricted(rows) <==> c in rows && c.restrictions == ""
  {
    if |rows| > 0 {
      UnrestrictedMembers(rows[..|rows| - 1], c);
      assert rows == rows[..|rows| - 1] + [rows[|rows| - 1]];
    }
  }

  /** The filter keeps the table order: loading two parts of a table one
      after the other gives the rows of the whole table. */
  lemma {:induction false} UnrestrictedAppend(a: seq<PvcStorageClass>, b: seq<PvcStorageClass>)
    ensures Unrestricted(a + b) == Unrestricted(a) + Unrestricted(b)
    decreases |b|
  {
    if |b| == 0 {
      assert a + b == a;
    } else {
      assert (a + b)[..|a + b| - 1] == a + b[..|b| - 1];
      UnrestrictedAppend(a, b[..|b| - 1]);
    }
  }

  /** `load_pvc_storage_classes_from_config`, on the rows of the table. */
  method LoadStorageClasses(rows: seq<PvcStorageClass>) returns (classes: seq<PvcStorageClass>)
    ensures classes == Unrestricted(rows)
    ensures forall i :: 0 <= i < |classes| ==> classes[i].restrictions == ""
  {
    classes := [];
    var i := 0;
    while i < |rows|
      invariant 0 <= i <= |rows|
      invariant classes == Unrestricted(rows[..i])
    {
      assert rows[..i + 1][..i] == rows[..i];
      if rows[i].restrictions == "" {
        classes := classes + [rows[i]];
      }
      i := i + 1;
    }
    assert rows[..|rows|] == rows;
    forall i | 0 <= i < |classes|
      ensures classes[i].restrictions == ""
    {
      UnrestrictedMembers(rows, classes[i]);
    }
  }

  // ---------------------------------------------------------------------
  // Choosing a storage class

  predicate Fits(c: PvcStorageClass, region: string, filesystemType: string) {
    c.region == region && c.filesystemType == filesystemType && c.restrictions == ""
  }

  function NoClassMessage(region: string, filesystemType: string): string {
    "No matching PVC storage class for region=\"" + region
      + "\" and filesystem type=\"" + filesystemType + "\""
  }

  /** `get_pvc_storage_class`: a class that fits, or the error naming both
      the region and the filesystem type when none does. */
  function GetPvcStorageClass(classes: seq<PvcStorageClass>, region: string, filesystemType: string)
    : (r: Result<PvcStorageClass, string>)
    ensures r.Ok? ==> r.value in classes && Fits(r.value, region, filesystemType)
    ensures r.Err? <==> forall i :: 0 <= i < |classes| ==> !Fits(classes[i], region, filesystemType)
    ensures r.Err? ==> r.error == NoClassMessage(region, filesystemType)
  {
    if |classes| == 0 then Err(NoClassMessage(region, filesystemType))
    else if Fits(classes[0], region, filesystemType) then Ok(classes[0])
    else
      var r := GetPvcStorageClass(classes[1..], region, filesystemType);
      assert forall i :: 1 <= i < |classes| ==> classes[i] == classes[1..][i - 1];
      r
  }

  /** The class chosen is the first that fits, in list order. */
  lemma {:induction false} StorageClassIsFirst(classes: seq<PvcStorageClass>, region: string,
                                                filesystemType: string, i: nat)
    requires i < |classes| && Fits(classes[i], region, filesystemType)
    requires forall j :: 0 <= j < i ==> !Fits(classes[j], region, filesystemType)
    ensures GetPvcStorageClass(classes, region, filesystemType) == Ok(classes[i])
  {
    if i > 0 {
      StorageClassIsFirst(classes[1..], region, filesystemType, i - 1);
    }
  }

  // ---------------------------------------------------------------------
  // Building the PVC config

  const MetadataName: Path := [Key("metadata"), Key("name")]
  const StorageClassName: Path := [Key("spec"), Key("storageClassName")]
  const AccessModes: Path := [Key("spec"), Key("accessModes")]
  const RequestsStorage: Path := [Key("spec"), Key("resources"), Key("requests"), Key("storage")]

  /** What `create_pvc_config` raises when the template lacks a dict it
      assigns into (a `KeyError` or `TypeError` in the source). */
  const TemplateError := "the PVC template lacks a field the config assigns"

  /** The template has the three dicts the config assigns into. */
  predicate TemplateShape(t: Value) {
    IsDictAt(t, [Key("metadata")]) && IsDictAt(t, [Key("spec")])
    && IsDictAt(t, [Key("spec"), Key("resources"), Key("requests")])
  }

  /** A path the config does not assign, nor lies inside or above one it does. */
  predicate Untouched(q: Path) {
    Diverge(MetadataName, q) && Diverge(StorageClassName, q)
    && Diverge(AccessModes, q) && Diverge(RequestsStorage, q)
  }

  /** The four assignments of `create_pvc_config`, in source order, with the
      storage-class lookup between the first and the second. */
  function PvcConfig(template: Value, classes: seq<PvcStorageClass>, name: string, size: string,
                     region: string, filesystemType: string): Result<Value, string>
  {
    match Set(template, MetadataName, Str(name))
    case None => Err(TemplateError)
    case Some(c1) =>
      match GetPvcStorageClass(classes, region, filesystemType)
      case Err(e) => Err(e)
      case Ok(cls) =>
        match Set(c1, StorageClassName, Str(cls.storageClass))
        case None => Err(TemplateError)
        case Some(c2) =>
          match Set(c2, AccessModes, List([Str(cls.accessModes)]))
          case None => Err(TemplateError)
          case Some(c3) =>
            match Set(c3, RequestsStorage, Str(size))
            case None => Err(TemplateError)
            case Some(c4) => Ok(c4)
  }

  /** `create_pvc_config`: copy the template and assign into it in place. */
  method CreatePvcConfig(template: Value, classes: seq<PvcStorageClass>, name: string, size: string,
                         region: string, filesystemType: string) returns (r: Result<Value, string>)
    ensures r == PvcConfig(template, classes, name, size, region, filesystemType)
  {
    var config := template;
    var updated := Set(config, MetadataName, Str(name));
    if updated.None? { return Err(TemplateError); }
    config := updated.value;
    var found := GetPvcStorageClass(classes, region, filesystemType);
    if found.Err? { return Err(found.error); }
    var cls := found.value;
    updated := Set(config, StorageClassName, Str(cls.storageClass));
    if updated.None? { return Err(TemplateError); }
    config := updated.value;
    updated := Set(config, AccessModes, List([Str(cls.accessModes)]));
    if updated.None? { return Err(TemplateError); }
    config := updated.value;
    updated := Set(config, RequestsStorage, Str(size));
    if updated.None? { return Err(TemplateError); }
    r := Ok(updated.value);
  }

  /** The config is built exactly when the template has the dicts it assigns
      into and a storage class fits; with a well-formed metadata dict and no
      fitting class, the error is the one naming region and filesystem type. */
  lemma PvcConfigDefined(template: Value, classes: seq<PvcStorageClass>, name: string, size: string,
                         region: string, filesystemType: string)
    ensures PvcConfig(template, classes, name, size, region, filesystemType).Ok? <==>
      TemplateShape(template) && GetPvcStorageClass(classes, region, filesystemType).Ok?
    ensures IsDictAt(template, [Key("metadata")]) && GetPvcStorageClass(classes, region, filesystemType).Err? ==>
      PvcConfig(template, classes, name, size, region, filesystemType) == Err(NoClassMessage(region, filesystemType))
  {
    PvcConfigBuilt(template, classes, name, size, region, filesystemType);
    if IsDictAt(template, [Key("metadata")]) {
      assert MetadataName[..1] == [Key("metadata")];
      SetKeyDefined(template, MetadataName, Str(name));
    }
  }

  lemma PvcConfigBuilt(template: Value, classes: seq<PvcStorageClass>, name: string, size: string,
                       region: string, filesystemType: string)
    ensures PvcConfig(template, classes, name, size, region, filesystemType).Ok? <==>
      TemplateShape(template) && GetPvcStorageClass(classes, region, filesystemType).Ok?
  {
    var spec := [Key("spec")];
    var requests := [Key("spec"), Key("resources"), Key("requests")];
    assert MetadataName[..1] == [Key("metadata")];
    SetKeyDefined(template, MetadataName, Str(name));
    var cfound := GetPvcStorageClass(classes, region, filesystemType);
    if Set(template, MetadataName, Str(name)).Some? && cfound.Ok? {
      var c1 := Set(template, MetadataName, Str(name)).value;
      GetSet(template, MetadataName, Str(name), spec);
      GetSet(template, MetadataName, Str(name), requests);
      LaterAssignmentsDefined(c1, cfound.value, size);
    }
  }

  /** The three assignments after the name succeed exactly when `spec` and
      `spec.resources.requests` are dicts. */
  lemma LaterAssignmentsDefined(c1: Value, cls: PvcStorageClass, size: string)
    ensures (var o2 := Set(c1, StorageClassName, Str(cls.storageClass));
             o2.Some? && var o3 := Set(o2.value, AccessModes, List([Str(cls.accessModes)]));
             o3.Some? && Set(o3.value, RequestsStorage, Str(size)).Some?)
      <==> IsDictAt(c1, [Key("spec")]) && IsDictAt(c1, [Key("spec"), Key("resources"), Key("requests")])
  {
    var spec := [Key("spec")];
    var requests := [Key("spec"), Key("resources"), Key("requests")];
    assert StorageClassName[..1] == spec && AccessModes[..1] == spec;
    assert RequestsStorage[..3] == requests;
    SetKeyDefined(c1, StorageClassName, Str(cls.storageClass));
    if IsDictAt(c1, spec) {
      var c2 := Set(c1, StorageClassName, Str(cls.storageClass)).value;
      SetKeepsParentDict(c1, StorageClassName, Str(cls.storageClass));
      GetSet(c1, StorageClassName, Str(cls.storageClass), requests);
      SetKeyDefined(c2, AccessModes, List([Str(cls.accessModes)]));
      var c3 := Set(c2, AccessModes, List([Str(cls.accessModes)])).value;
      GetSet(c2, AccessModes, List([Str(cls.accessModes)]), requests);
      SetKeyDefined(c3, RequestsStorage, Str(size));
    }
  }

  /** A built config holds the name, the chosen class, its access mode as a
      one-element list and the size, and agrees with the template on every
      path the four assignments do not touch. */
  lemma PvcConfigContents(template: Value, classes: seq<PvcStorageClass>, name: string, size: string,
                          region: string, filesystemType: string, q: Path)
    requires PvcConfig(template, classes, name, size, region, filesystemType).Ok?
    ensures var config := PvcConfig(template, classes, name, size, region, filesystemType).value;
            var cls := GetPvcStorageClass(classes, region, filesystemType).value;
      && Get(config, MetadataName) == Some(Str(name))
      && Get(config, StorageClassName) == Some(Str(cls.storageClass))
      && Get(config, AccessModes) == Some(List([Str(cls.accessModes)]))
      && Get(config, RequestsStorage) == Some(Str(size))
      && (Untouched(q) ==> Get(config, q) == Get(template, q))
  {
    var cls := GetPvcStorageClass(classes, region, filesystemType).value;
    var c1 := Set(template, MetadataName, Str(name)).value;
    var c2 := Set(c1, StorageClassName, Str(cls.storageClass)).value;
    var c3 := Set(c2, AccessModes, List([Str(cls.accessModes)])).value;
    var c4 := Set(c3, RequestsStorage, Str(size)).value;
    assert Diverge(RequestsStorage, AccessModes) && Diverge(RequestsStorage, StorageClassName);
    assert Diverge(RequestsStorage, MetadataName) && Diverge(AccessModes, StorageClassName);
    assert Diverge(AccessModes, MetadataName) && Diverge(StorageClassName, MetadataName);
    GetSet(template, MetadataName, Str(name), q);
    GetSet(c1, StorageClassName, Str(cls.storageClass), q);
    GetSet(c2, AccessModes, List([Str(cls.accessModes)]), q);
    GetSet(c3, RequestsStorage, Str(size), q);
    GetSet(c1, StorageClassName, Str(cls.storageClass), MetadataName);
    GetSet(c2, AccessModes, List([Str(cls.accessModes)]), MetadataName);
    GetSet(c2, AccessModes, List([Str(cls.accessModes)]), StorageClassName);
    GetSet(c3, RequestsStorage, Str(size), MetadataName);
    GetSet(c3, RequestsStorage, Str(size), StorageClassName);
    GetSet(c3, RequestsStorage, Str(size), AccessModes);
  }

  // ---------------------------------------------------------------------
  // Creating a PVC and waiting for it

  const DefaultRegion := "US West"
  const DefaultFilesystemType := "CephFS"

  /** A phase answer after which `create_pvc` polls again. */
  predicate PvcWaiting(a: PvcPoll) {
    a.Phase? && a.phase != "Bound"
  }

  /** How the wait loop of `create_pvc` ends: at a `Bound` answer, at a
      failing poll, or still polling after the last given answer. */
  function BoundOutcome(name: string, answers: seq<PvcPoll>): Outcome {
    match FirstDecisive(answers, PvcWaiting)
    case None => StillWaiting
    case Some(k) => if answers[k] == PvcCommandFails then Raised(CommandFailed(GetPvcPhase(name))) else Finished
  }

  /** The wait loop of `create_pvc`: poll the phase and sleep after every
      answer other than `Bound`; a failing poll raises out of the loop. */
  method WaitUntilBound(cluster: Cluster, name: string) returns (r: Outcome)
    modifies cluster
    ensures cluster.log == old(cluster.log) + PollLog(GetPvcPhase(name), cluster.pvcPolls(name), PvcWaiting)
    ensures r == BoundOutcome(name, cluster.pvcPolls(name))
  {
    var answers := cluster.pvcPolls(name);
    var poll := GetPvcPhase(name);
    var i := 0;
    var answer: PvcPoll := PvcCommandFails;
    while i < |answers|
      invariant 0 <= i <= |answers|
      invariant cluster.log == old(cluster.log) + Rounds(poll, i)
      invariant forall j :: 0 <= j < i ==> PvcWaiting(answers[j])
    {
      answer := cluster.PollPvc(name, i);
      if !PvcWaiting(answer) {
        break;
      }
      cluster.Pause();
      i := i + 1;
    }
    if i == |answers| {
      NoneDecisive(answers, PvcWaiting);
      return StillWaiting;
    }
    FirstDecisiveAt(answers, PvcWaiting, i);
    r := if answer == PvcCommandFails then Raised(CommandFailed(poll)) else Finished;
  }

  /** The commands `create_pvc` issues once it has built the config `doc`. */
  function CreatedLog(doc: Value, name: string, fails: Kubectl -> bool, answers: seq<PvcPoll>): seq<Kubectl> {
    if fails(Create(Document(doc))) then [Create(Document(doc))]
    else
      [Create(Document(doc))] + PollLog(GetPvcPhase(name), answers, PvcWaiting)
      + (if BoundOutcome(name, answers) == Finished then [GetPvc(name)] else [])
  }

  /** How `create_pvc` ends once it has built the config `doc`. */
  function CreatedOutcome(doc: Value, name: string, fails: Kubectl -> bool, answers: seq<PvcPoll>): Outcome {
    if fails(Create(Document(doc))) then Raised(CommandFailed(Create(Document(doc))))
    else if BoundOutcome(name, answers) != Finished then BoundOutcome(name, answers)
    else if fails(GetPvc(name)) then Raised(CommandFailed(GetPvc(name)))
    else Finished
  }

  /** The commands `create_pvc` issues: none when building the config fails. */
  function CreationLog(config: Result<Value, string>, name: string, fails: Kubectl -> bool,
                       answers: seq<PvcPoll>): seq<Kubectl>
  {
    match config
    case Err(_) => []
    case Ok(doc) => CreatedLog(doc, name, fails, answers)
  }

  /** How `create_pvc` ends. */
  function CreationOutcome(config: Result<Value, string>, name: string, fails: Kubectl -> bool,
                           answers: seq<PvcPoll>): Outcome
  {
    match config
    case Err(e) => Raised(Message(e))
    case Ok(doc) => CreatedOutcome(doc, name, fails, answers)
  }

  /** The part of `create_pvc` after the config is built: create it, wait
      until it is bound, then show it. */
  method CreateAndWait(cluster: Cluster, doc: Value, name: string) returns (r: Outcome)
    modifies cluster
    ensures cluster.log == old(cluster.log) + CreatedLog(doc, name, cluster.fails, cluster.pvcPolls(name))
    ensures r == CreatedOutcome(doc, name, cluster.fails, cluster.pvcPolls(name))
  {
    var create := Create(Document(doc));
    var ok := cluster.Run(create);
    if !ok {
      return Raised(CommandFailed(create));
    }
    r := WaitUntilBound(cluster, name);
    ghost var waited := PollLog(GetPvcPhase(name), cluster.pvcPolls(name), PvcWaiting);
    if r != Finished {
      assert cluster.log == old(cluster.log) + ([create] + waited + []);
      return;
    }
    ok := cluster.Run(GetPvc(name));
    assert cluster.log == old(cluster.log) + ([create] + waited + [GetPvc(name)]);
    if !ok {
      r := Raised(CommandFailed(GetPvc(name)));
    }
  }

  /** `create_pvc`: build the config from the template, then create the PVC
      and wait for it. */
  method CreatePvc(cluster: Cluster, template: Value, classes: seq<PvcStorageClass>, name: string,
                   size: string, region: string, filesystemType: string) returns (r: Outcome)
    modifies cluster
    ensures var config := PvcConfig(template, classes, name, size, region, filesystemType);
      && cluster.log == old(cluster.log) + CreationLog(config, name, cluster.fails, cluster.pvcPolls(name))
      && r == CreationOutcome(config, name, cluster.fails, cluster.pvcPolls(name))
  {
    var config := CreatePvcConfig(template, classes, name, size, region, filesystemType);
    if config.Err? {
      return Raised(Message(config.error));
    }
    r := CreateAndWait(cluster, config.value, name);
  }

  /** Polling stops at the first `Bound`: with `k` other phases before it,
      the creation sleeps exactly `k` times between the create command and
      the final `kubectl get pvc`. */
  lemma CreationSleeps(config: Result<Value, string>, name: string, fails: Kubectl -> bool,
                       answers: seq<PvcPoll>, k: nat)
    requires config.Ok? && !fails(Create(Document(config.value)))
    requires k < |answers| && answers[k] == Phase("Bound")
    requires forall j :: 0 <= j < k ==> answers[j].Phase? && answers[j].phase != "Bound"
    ensures var log := CreationLog(config, name, fails, answers);
      && |log| == 2 * k + 3
      && log[0] == Create(Document(config.value))
      && log[2 * k + 1] == GetPvcPhase(name)
      && log[2 * k + 2] == GetPvc(name)
      && SleepCount(log) == k
  {
    var create := Create(Document(config.value));
    FirstDecisiveAt(answers, PvcWaiting, k);
    assert BoundOutcome(name, answers) == Finished;
    var p := PollLog(GetPvcPhase(name), answers, PvcWaiting);
    PollLogSleeps(GetPvcPhase(name), answers, PvcWaiting);
    assert CreationLog(config, name, fails, answers) == [create] + p + [GetPvc(name)];
    SleepCountAppend([create], p);
    SleepCountAppend([create] + p, [GetPvc(name)]);
    assert SleepCount([create]) == 0 by { assert [create][..0] == []; }
    assert SleepCount([GetPvc(name)]) == 0 by { assert [GetPvc(name)][..0] == []; }
  }

  // ---------------------------------------------------------------------
  // Command line

  datatype Action = CreateAction | DeleteAction | ListAction

  datatype Args = Args(action: Action, name: Option<string>, size: Option<string>)

  function ActionOf(s: string): Option<Action> {
    if s == "create" then Some(CreateAction)
    else if s == "delete" then Some(DeleteAction)
    else if s == "list" then Some(ListAction)
    else None
  }

  /** The rule of `parse_args`: the action must be one of the three choices,
      create and delete need a non-empty name, and create also needs a
      non-empty size; list needs neither. */
  function ParseArgs(action: string, name: Option<string>, size: Option<string>): (r: Result<Args, string>)
    ensures r.Ok? <==>
      (ActionOf(action).Some?
       && (ActionOf(action) == Some(CreateAction) ==> Truthy(name) && Truthy(size))
       && (ActionOf(action) == Some(DeleteAction) ==> Truthy(name)))
    ensures r.Ok? ==> r.value == Args(ActionOf(action).value, name, size)
    ensures ActionOf(action).Some? && ActionOf(action) != Some(ListAction) && !Truthy(name) ==>
      r == Err("name is required")
  {
    match ActionOf(action)
    case None => Err("invalid choice: " + action)
    case Some(a) =>
      if (a == CreateAction || a == DeleteAction) && !Truthy(name) then Err("name is required")
      else if a == CreateAction && !Truthy(size) then Err("create requires a size.")
      else Ok(Args(a, name, size))
  }

  /** `main`: parse the arguments and run exactly the one matching action. */
  method RunCommand(cluster: Cluster, template: Value, classes: seq<PvcStorageClass>,
              action: string, name: Option<string>, size: Option<string>) returns (r: Outcome)
    modifies cluster
    ensures ParseArgs(action, name, size).Err? ==>
      r == Raised(Message(ParseArgs(action, name, size).error)) && cluster.log == old(cluster.log)
    ensures ParseArgs(action, name, size) == Ok(Args(DeleteAction, name, size)) ==>
      cluster.log == old(cluster.log) + [DeletePvc(name.value)]
      && (r == Finished <==> !cluster.fails(DeletePvc(name.value)))
    ensures ParseArgs(action, name, size) == Ok(Args(ListAction, name, size)) ==>
      cluster.log == old(cluster.log) + [ListPvcs] && (r == Finished <==> !cluster.fails(ListPvcs))
    ensures ParseArgs(action, name, size) == Ok(Args(CreateAction, name, size)) ==>
      var config := PvcConfig(template, classes, name.value, size.value, DefaultRegion, DefaultFilesystemType);
      && cluster.log == old(cluster.log) + CreationLog(config, name.value, cluster.fails, cluster.pvcPolls(name.value))
      && r == CreationOutcome(config, name.value, cluster.fails, cluster.pvcPolls(name.value))
  {
    var args := ParseArgs(action, name, size);
    if args.Err? {
      return Raised(Message(args.error));
    }
    match args.value.action
    case CreateAction =>
      r := CreatePvc(cluster, template, classes, name.value, size.value, DefaultRegion, DefaultFilesystemType);
    case DeleteAction =>
      var ok := cluster.Run(DeletePvc(name.value));
      r := if ok then Finished else Raised(CommandFailed(DeletePvc(name.value)));
    case ListAction =>
      var ok := cluster.Run(ListPvcs);
      r := if ok then Finished else Raised(CommandFailed(ListPvcs));
  }
}
