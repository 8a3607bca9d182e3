/** The storage transfer client of cli/storage/nrp_storage.py: locator
    parsing over three grammars tried in a fixed order, and the routing of a
    transfer over the nine (source, destination) storage-type pairs, issued
    as calls to the rclone and k8s helpers. The helpers are abstract here:
    every call is appended to a log and may raise (the k8s helper itself is
    modelled in module K8sHelper). */
module NrpStorage {
  import opened Common
  import opened PathGrammar
  import Trace

  datatype StorageType = Local | S3 | Pvc

  /** The order in which the grammars are tried. */
  const OrderedTypes: seq<StorageType> := [S3, Pvc, Local]

  /** A parsed locator: its type, the text of regex group 1 and the
      remaining groups. */
  datatype StoragePath = StoragePath(kind: StorageType, path: string, paths: seq<string>)

  // ---------------------------------------------------------------------
  // Grammars

  /** One or more `[\w.-]` characters. */
  predicate SegChars(x: string) {
    |x| > 0 && IsSegChar(x[0]) && (|x| == 1 || SegChars(x[1..]))
  }

  // LOCAL: `/?(?:[\w.-]+/)*(?:[\w.-]+)?` (every part optional)
  predicate LocalBody(s: string) {
    || s == "" || PathBody(s)
    || (|s| > 0 && s[0] == '/' && (|s| == 1 || PathBody(s[1..])))
  }

  // The part after the scheme for S3 and PVC: `([\w.-]+):([\w.-]+(?:/[\w.-]+)*/?)`
  predicate NameColonPath(t: string) {
    match IndexOf(t, ':')
    case None => false
    case Some(i) => SegChars(t[..i]) && PathBody(t[i + 1..])
  }

  predicate S3Body(s: string) {
    |s| >= 5 && s[..5] == "s3://" && NameColonPath(s[5..])
  }

  predicate PvcBody(s: string) {
    |s| >= 6 && s[..6] == "pvc://" && NameColonPath(s[6..])
  }

  /** `get_regex`: the grammar of each storage type. */
  function Grammar(t: StorageType): string -> bool {
    match t
    case Local => LocalBody
    case S3 => S3Body
    case Pvc => PvcBody
  }

  /** The scheme prefix each grammar demands. */
  function SchemeLength(t: StorageType): nat {
    match t
    case Local => 0
    case S3 => 5
    case Pvc => 6
  }

  /** The record built from the text a grammar matched: group 1 is the text
      after the scheme; the other groups are the name and the inner path for
      S3 and PVC, and group 1 again for LOCAL. */
  function Record(t: StorageType, m: string): StoragePath
    requires |m| >= SchemeLength(t)
  {
    var path := m[SchemeLength(t)..];
    match t
    case Local => StoragePath(Local, path, [path])
    case _ =>
      match IndexOf(path, ':')
      case None => StoragePath(t, path, [])
      case Some(i) => StoragePath(t, path, [path[..i], path[i + 1..]])
  }

  /** The first type in `order` whose grammar matches `s`. */
  function FirstMatch(order: seq<StorageType>, s: string): Option<StoragePath> {
    if |order| == 0 then None
    else match AnchoredMatch(Grammar(order[0]), s)
      case Some(m) =>
        assert |m| >= SchemeLength(order[0]) by { if order[0] != Local { assert Grammar(order[0])(m); } }
        Some(Record(order[0], m))
      case None => FirstMatch(order[1..], s)
  }

  /** `_parse_path`. */
  function ParsePath(s: string): (r: Result<StoragePath, string>)
    ensures r.Err? ==> r.error == "Unable to parse path \"" + s + "\""
  {
    match FirstMatch(OrderedTypes, s)
    case Some(p) => Ok(p)
    case None => Err("Unable to parse path \"" + s + "\"")
  }

  /** `s` is accepted by the grammar of `t`. */
  predicate Matches(t: StorageType, s: string) {
    AnchoredMatch(Grammar(t), s).Some?
  }

  // ---------------------------------------------------------------------
  // Parsing properties

  lemma SegCharsAlphabet(x: string)
    requires SegChars(x)
    ensures forall i :: 0 <= i < |x| ==> IsSegChar(x[i])
  {
    if |x| > 1 {
      SegCharsAlphabet(x[1..]);
      assert forall i :: 1 <= i < |x| ==> x[i] == x[1..][i - 1];
    }
  }

  /** A LOCAL locator contains no colon. */
  lemma LocalNoColon(s: string)
    requires LocalBody(s)
    ensures ':' !in s
  {
    if s != "" {
      if PathBody(s) {
        PathBodyNoColon(s);
      } else if |s| > 1 {
        PathBodyNoColon(s[1..]);
        assert s == [s[0]] + s[1..];
      }
    }
  }

  /** What a match of grammar `t` tells about the string. */
  lemma MatchText(t: StorageType, s: string)
    ensures Matches(t, s) ==>
      var m := AnchoredMatch(Grammar(t), s).value;
      && (m == s || m + "\n" == s) && |m| >= SchemeLength(t)
      && (t == Local ==> forall k :: 0 <= k < |s| - 1 ==> s[k] != ':')
      && (t == S3 ==> |s| > 6 && s[..5] == "s3://")
      && (t == Pvc ==> |s| > 7 && s[..6] == "pvc://")
  {
    if Matches(t, s) {
      var m := AnchoredMatch(Grammar(t), s).value;
      assert Grammar(t)(m);
      if t == Local {
        LocalNoColon(m);
        assert forall k :: 0 <= k < |s| - 1 ==> s[k] == m[k];
      }
      if t == S3 { assert m[..5] == s[..5]; }
      if t == Pvc { assert m[..6] == s[..6]; }
    }
  }

  /** At most one grammar accepts any string, so the order in which they are
      tried never changes the result: S3 and PVC need different literal
      prefixes, and LOCAL's alphabet has no colon, which both others require. */
  lemma {:induction false} GrammarsDisjoint(s: string, t: StorageType, u: StorageType)
    requires t != u
    ensures !(Matches(t, s) && Matches(u, s))
  {
    if Matches(t, s) && Matches(u, s) {
      var first := SchemeFacts(t, s);
      var second := SchemeFacts(u, s);
    }
  }

  /** The first character each match pins down, and where the colon of a
      scheme sits. */
  lemma SchemeFacts(t: StorageType, s: string) returns (colon: nat)
    requires Matches(t, s)
    ensures t == Local ==> forall k :: 0 <= k < |s| - 1 ==> s[k] != ':'
    ensures t == S3 ==> s[0] == 's' && colon == 2 && colon < |s| - 1 && s[colon] == ':'
    ensures t == Pvc ==> s[0] == 'p' && colon == 3 && colon < |s| - 1 && s[colon] == ':'
  {
    MatchText(t, s);
    if t == S3 {
      colon := 2;
      assert s[..5][0] == 's' && s[..5][2] == ':';
    } else if t == Pvc {
      colon := 3;
      assert s[..6][0] == 'p' && s[..6][3] == ':';
    } else {
      colon := 0;
    }
  }

  lemma {:induction false} FirstMatchFinds(order: seq<StorageType>, s: string)
    ensures FirstMatch(order, s).Some? ==>
      var p := FirstMatch(order, s).value;
      p.kind in order && Matches(p.kind, s)
      && |AnchoredMatch(Grammar(p.kind), s).value| >= SchemeLength(p.kind)
      && p == Record(p.kind, AnchoredMatch(Grammar(p.kind), s).value)
    ensures FirstMatch(order, s).None? ==> forall t :: t in order ==> !Matches(t, s)
  {
    if |order| > 0 {
      FirstMatchFinds(order[1..], s);
      var am := AnchoredMatch(Grammar(order[0]), s);
      if am.Some? {
        MatchText(order[0], s);
        assert FirstMatch(order, s) == Some(Record(order[0], am.value));
      } else {
        assert FirstMatch(order, s) == FirstMatch(order[1..], s);
      }
    }
  }

  /** Parsing yields type `t` exactly when `t`'s grammar accepts the string,
      and fails exactly when no grammar does. */
  lemma ParseKind(s: string, t: StorageType)
    ensures ParsePath(s).Ok? && ParsePath(s).value.kind == t <==> Matches(t, s)
    ensures ParsePath(s).Err? <==> !Matches(Local, s) && !Matches(S3, s) && !Matches(Pvc, s)
  {
    FirstMatchFinds(OrderedTypes, s);
    if ParsePath(s).Ok? && ParsePath(s).value.kind != t {
      GrammarsDisjoint(s, t, ParsePath(s).value.kind);
    }
  }

  /** What a successful parse holds: the locator is the scheme followed by
      `path` (and possibly one final newline); for S3 and PVC `path` is the
      name, a colon and the inner path; for LOCAL the only other group is
      `path` itself. */
  lemma {:induction false} ParseShape(s: string)
    requires ParsePath(s).Ok?
    ensures var p := ParsePath(s).value;
      && (s == Scheme(p.kind) + p.path || s == Scheme(p.kind) + p.path + "\n")
      && (p.kind == Local ==> p.paths == [p.path] && ':' !in p.path)
      && (p.kind != Local ==>
            |p.paths| == 2 && p.path == p.paths[0] + ":" + p.paths[1]
            && SegChars(p.paths[0]) && ':' !in p.paths[0] && PathBody(p.paths[1]))
  {
    var p := ParsePath(s).value;
    FirstMatchFinds(OrderedTypes, s);
    MatchText(p.kind, s);
    var m := AnchoredMatch(Grammar(p.kind), s).value;
    assert Grammar(p.kind)(m);
    match p.kind
    case Local =>
      assert LocalBody(m);
      LocalNoColon(m);
      assert p.path == m;
    case S3 =>
      assert S3Body(m);
      NameColonAfterScheme(p, m, 5);
    case Pvc =>
      assert PvcBody(m);
      NameColonAfterScheme(p, m, 6);
  }

  lemma NameColonAfterScheme(p: StoragePath, m: string, n: nat)
    requires p.kind != Local && n == SchemeLength(p.kind) && n <= |m|
    requires p == Record(p.kind, m) && m[..n] == Scheme(p.kind) && NameColonPath(m[n..])
    ensures m == Scheme(p.kind) + p.path
    ensures |p.paths| == 2 && p.path == p.paths[0] + ":" + p.paths[1]
    ensures SegChars(p.paths[0]) && ':' !in p.paths[0] && PathBody(p.paths[1])
  {
    var t := m[n..];
    assert p.path == t;
    NameColonSplit(t);
    assert m == m[..n] + t;
  }

  function Scheme(t: StorageType): string {
    match t
    case Local => ""
    case S3 => "s3://"
    case Pvc => "pvc://"
  }

  lemma NameColonSplit(t: string)
    requires NameColonPath(t)
    ensures var i := IndexOf(t, ':').value;
      t == t[..i] + ":" + t[i + 1..] && ':' !in t[..i]
  {
    var i := IndexOf(t, ':').value;
    assert t == t[..i] + [t[i]] + t[i + 1..];
  }

  /** The empty string is a LOCAL locator: every part of that grammar is optional. */
  lemma ParseEmpty()
    ensures ParsePath("") == Ok(StoragePath(Local, "", [""]))
  {
    assert !S3Body("") && !PvcBody("") && LocalBody("");
  }

  // ---------------------------------------------------------------------
  // Routing

  /** The strategies `_sync` chooses between. */
  datatype Route =
    | DirectPaths      // one rclone sync of the two `.path` strings
    | DirectRecords    // one rclone sync of the two parsed records
    | PvcToPvc         // delegated to the k8s helper, which always raises
    | LocalToPvc       // via a temporary bucket
    | PvcToLocal       // via a temporary bucket
    | S3ToPvc          // one k8s transfer job, destination sized first
    | PvcToS3          // one k8s transfer job
    | Unhandled        // the `NotImplementedError('Unhandled cases')` branch

  /** The decision of `_sync` on the two storage types. */
  function RouteOf(src: StorageType, dst: StorageType): Route {
    if src == dst then
      match src
      case Local => DirectPaths
      case S3 => DirectRecords
      case Pvc => PvcToPvc
    else
      var kinds := {src, dst};
      if kinds == {Local, S3} then DirectPaths
      else if kinds == {Local, Pvc} then (if src == Local then LocalToPvc else PvcToLocal)
      else if kinds == {S3, Pvc} then (if src == S3 then S3ToPvc else PvcToS3)
      else Unhandled
  }

  /** Every one of the nine pairs has a route: the `Unhandled` branch is dead. */
  lemma RouteTotal(src: StorageType, dst: StorageType)
    ensures RouteOf(src, dst) != Unhandled
    ensures RouteOf(src, dst) == DirectPaths <==>
      (src == Local && dst == Local) || {src, dst} == {Local, S3}
  {
    if src != dst {
      if {src, dst} == {Local, S3} {
      } else if {src, dst} == {Local, Pvc} {
      } else {
        assert src in {src, dst} && dst in {src, dst};
        assert {src, dst} == {S3, Pvc};
      }
    }
  }

  /** An argument of an rclone sync: a string, or (on the S3 to S3 route) the
      parsed record itself. */
  datatype SyncArg = Text(text: string) | RecordArg(record: StoragePath)

  /** A call made by `_sync` to one of its helpers. */
  datatype Call =
    | RcloneSync(from: SyncArg, to: SyncArg)
    | RcloneCreateBucket(endpoint: string, name: string)
    | RcloneGetSize(sizePath: string)
    | RcloneDeleteBucket(endpoint: string, name: string)
    | K8sSyncS3ToPvc(s3Src: string, pvcDst: string, size: int)
    | K8sSyncPvcToS3(pvcSrc: string, s3Dst: string)
    | K8sSyncPvcToPvc(pvcSrc: string, pvcDst: string)

  /** Calls that raise whatever the environment does: the k8s helper's
      `sync_pvc_to_pvc` is not implemented, and rclone's `sync` passes its
      arguments to `shlex.quote`, which rejects anything but a string. */
  predicate AlwaysRaises(c: Call) {
    || c.K8sSyncPvcToPvc?
    || (c.RcloneSync? && (c.from.RecordArg? || c.to.RecordArg?))
  }

  /** `create_bucket()` with its defaults: endpoint `us-west`, name `tmp.<random>`. */
  const DefaultEndpoint := "us-west"

  function TempBucketName(random: string): string {
    "tmp." + random
  }

  /** The calls `_sync` intends to make for a route, when none raises.
      `bucket` is the name of the temporary bucket and `sizeOf` what
      `get_size` reports. */
  function Plan(src: StoragePath, dst: StoragePath, bucket: string, sizeOf: string -> int): seq<Call> {
    var s3Path := DefaultEndpoint + ":" + bucket;
    match RouteOf(src.kind, dst.kind)
    case DirectPaths => [RcloneSync(Text(src.path), Text(dst.path))]
    case DirectRecords => [RcloneSync(RecordArg(src), RecordArg(dst))]
    case PvcToPvc => [K8sSyncPvcToPvc(src.path, dst.path)]
    case LocalToPvc =>
      [ RcloneCreateBucket(DefaultEndpoint, bucket),
        RcloneSync(Text(src.path), Text(s3Path)),
        RcloneGetSize(s3Path),
        K8sSyncS3ToPvc(s3Path, dst.path, sizeOf(s3Path)),
        RcloneDeleteBucket(DefaultEndpoint, bucket) ]
    case PvcToLocal =>
      [ RcloneCreateBucket(DefaultEndpoint, bucket),
        K8sSyncPvcToS3(src.path, s3Path),
        RcloneSync(Text(s3Path), Text(src.path)),
        RcloneDeleteBucket(DefaultEndpoint, bucket) ]
    case S3ToPvc =>
      [ RcloneGetSize(src.path), K8sSyncS3ToPvc(src.path, dst.path, sizeOf(src.path)) ]
    case PvcToS3 => [K8sSyncPvcToS3(src.path, dst.path)]
    case Unhandled => []
  }

  /** Why a sync did not complete. */
  datatype SyncError = ParseFailed(message: string) | UnhandledCase | CallRaised(call: Call)

  /** The rclone and k8s helpers as seen by `_sync`: each call is logged and
      either returns or raises. */
  class Helpers {
    var log: seq<Call>
    const fails: Call -> bool
    const sizeOf: string -> int

    constructor (fails: Call -> bool, sizeOf: string -> int)
      ensures log == [] && this.fails == fails && this.sizeOf == sizeOf
    {
      log := [];
      this.fails := fails;
      this.sizeOf := sizeOf;
    }

    predicate Raises(c: Call) {
      AlwaysRaises(c) || fails(c)
    }

    method Issue(c: Call) returns (ok: bool)
      modifies this
      ensures log == old(log) + [c]
      ensures ok == !Raises(c)
    {
      log := log + [c];
      ok := !Raises(c);
    }

    /** `get_size`: logged like any call; reports `sizeOf(path)` when it returns. */
    method GetSize(path: string) returns (ok: bool, size: int)
      modifies this
      ensures log == old(log) + [RcloneGetSize(path)]
      ensures ok == !Raises(RcloneGetSize(path)) && size == sizeOf(path)
    {
      ok := Issue(RcloneGetSize(path));
      size := sizeOf(path);
    }
  }

  /** `NrpStorage`: the two parsed locators and the helpers. */
  class Storage {
    var srcPath: Option<StoragePath>
    var dstPath: Option<StoragePath>
    const helpers: Helpers

    constructor (helpers: Helpers)
      ensures srcPath == None && dstPath == None && this.helpers == helpers
    {
      srcPath := None;
      dstPath := None;
      this.helpers := helpers;
    }

    /** `sync`: parse both locators (the source first), store them, then
        route. The helpers' log grows by the calls of the route's plan up to
        the first one that raises. */
    method Sync(src: string, dst: string, random: string) returns (r: Result<(), SyncError>)
      modifies this, helpers
      ensures ParsePath(src).Err? ==>
        r == Err(ParseFailed(ParsePath(src).error)) && unchanged(helpers)
        && srcPath == old(srcPath) && dstPath == old(dstPath)
      ensures ParsePath(src).Ok? && ParsePath(dst).Err? ==>
        r == Err(ParseFailed(ParsePath(dst).error)) && unchanged(helpers)
        && srcPath == Some(ParsePath(src).value) && dstPath == old(dstPath)
      ensures ParsePath(src).Ok? && ParsePath(dst).Ok? ==>
        var s, d := ParsePath(src).value, ParsePath(dst).value;
        var plan := Plan(s, d, TempBucketName(random), helpers.sizeOf);
        && srcPath == Some(s) && dstPath == Some(d)
        && helpers.log == old(helpers.log) + Trace.Executed(plan, helpers.Raises)
        && (r.Ok? <==> Trace.AllSucceed(plan, helpers.Raises) && RouteOf(s.kind, d.kind) != Unhandled)
    {
      var ps := ParsePath(src);
      if ps.Err? {
        return Err(ParseFailed(ps.error));
      }
      srcPath := Some(ps.value);
      var pd := ParsePath(dst);
      if pd.Err? {
        return Err(ParseFailed(pd.error));
      }
      dstPath := Some(pd.value);
      r := SyncParsed(ps.value, pd.value, random);
    }

    /** `_sync` on the stored locators. */
    method SyncParsed(s: StoragePath, d: StoragePath, random: string) returns (r: Result<(), SyncError>)
      modifies helpers
      ensures var plan := Plan(s, d, TempBucketName(random), helpers.sizeOf);
        && helpers.log == old(helpers.log) + Trace.Executed(plan, helpers.Raises)
        && (r.Ok? <==> Trace.AllSucceed(plan, helpers.Raises) && RouteOf(s.kind, d.kind) != Unhandled)
    {
      match RouteOf(s.kind, d.kind) {
        case DirectPaths =>
          r := Step(RcloneSync(Text(s.path), Text(d.path)));
        case DirectRecords =>
          r := Step(RcloneSync(RecordArg(s), RecordArg(d)));
        case PvcToPvc =>
          r := Step(K8sSyncPvcToPvc(s.path, d.path));
        case LocalToPvc =>
          r := BridgeLocalToPvc(s, d, random);
        case PvcToLocal =>
          r := BridgePvcToLocal(s, d, random);
        case S3ToPvc =>
          ghost var plan := Plan(s, d, TempBucketName(random), helpers.sizeOf);
          ghost var log0 := helpers.log;
          var ok, size := helpers.GetSize(s.path);
          if !ok {
            Trace.ExecutedStopsAt(plan, helpers.Raises, 0);
            return Err(CallRaised(RcloneGetSize(s.path)));
          }
          r := Step(K8sSyncS3ToPvc(s.path, d.path, size));
          assert helpers.log == log0 + plan;
          if r.Err? { Trace.ExecutedStopsAt(plan, helpers.Raises, 1); } else { Trace.ExecutedAll(plan, helpers.Raises); }
        case PvcToS3 =>
          r := Step(K8sSyncPvcToS3(s.path, d.path));
        case Unhandled =>
          r := Err(UnhandledCase);
      }
    }

    /** One helper call whose failure ends the sync. */
    method Step(c: Call) returns (r: Result<(), SyncError>)
      modifies helpers
      ensures helpers.log == old(helpers.log) + [c]
      ensures r == if helpers.Raises(c) then Err(CallRaised(c)) else Ok(())
    {
      var ok := helpers.Issue(c);
      r := if ok then Ok(()) else Err(CallRaised(c));
    }

    /** local -> temporary bucket -> PVC. There is no try/finally: the bucket
        is deleted only when both legs return. */
    method BridgeLocalToPvc(s: StoragePath, d: StoragePath, random: string) returns (r: Result<(), SyncError>)
      requires RouteOf(s.kind, d.kind) == LocalToPvc
      modifies helpers
      ensures var plan := Plan(s, d, TempBucketName(random), helpers.sizeOf);
        && helpers.log == old(helpers.log) + Trace.Executed(plan, helpers.Raises)
        && (r.Ok? <==> Trace.AllSucceed(plan, helpers.Raises))
    {
      ghost var plan := Plan(s, d, TempBucketName(random), helpers.sizeOf);
      ghost var log0 := helpers.log;
      var endpoint, bucket := DefaultEndpoint, TempBucketName(random);
      assert plan[..0] == [];
      r := Step(RcloneCreateBucket(endpoint, bucket));
      Trace.Stepped(plan, helpers.Raises, 0, log0, helpers.log);
      if r.Err? { return; }
      var s3Path := endpoint + ":" + bucket;
      r := Step(RcloneSync(Text(s.path), Text(s3Path)));
      Trace.Stepped(plan, helpers.Raises, 1, log0, helpers.log);
      if r.Err? { return; }
      var ok, size := helpers.GetSize(s3Path);
      Trace.Stepped(plan, helpers.Raises, 2, log0, helpers.log);
      if !ok {
        return Err(CallRaised(RcloneGetSize(s3Path)));
      }
      r := Step(K8sSyncS3ToPvc(s3Path, d.path, size));
      Trace.Stepped(plan, helpers.Raises, 3, log0, helpers.log);
      if r.Err? { return; }
      r := Step(RcloneDeleteBucket(endpoint, bucket));
      Trace.Stepped(plan, helpers.Raises, 4, log0, helpers.log);
    }

    /** PVC -> temporary bucket -> local. The second leg writes into the
        source's `.path`, as the source does. */
    method BridgePvcToLocal(s: StoragePath, d: StoragePath, random: string) returns (r: Result<(), SyncError>)
      requires RouteOf(s.kind, d.kind) == PvcToLocal
      modifies helpers
      ensures var plan := Plan(s, d, TempBucketName(random), helpers.sizeOf);
        && helpers.log == old(helpers.log) + Trace.Executed(plan, helpers.Raises)
        && (r.Ok? <==> Trace.AllSucceed(plan, helpers.Raises))
    {
      ghost var plan := Plan(s, d, TempBucketName(random), helpers.sizeOf);
      ghost var log0 := helpers.log;
      var endpoint, bucket := DefaultEndpoint, TempBucketName(random);
      assert plan[..0] == [];
      r := Step(RcloneCreateBucket(endpoint, bucket));
      Trace.Stepped(plan, helpers.Raises, 0, log0, helpers.log);
      if r.Err? { return; }
      var s3Path := endpoint + ":" + bucket;
      r := Step(K8sSyncPvcToS3(s.path, s3Path));
      Trace.Stepped(plan, helpers.Raises, 1, log0, helpers.log);
      if r.Err? { return; }
      r := Step(RcloneSync(Text(s3Path), Text(s.path)));
      Trace.Stepped(plan, helpers.Raises, 2, log0, helpers.log);
      if r.Err? { return; }
      r := Step(RcloneDeleteBucket(endpoint, bucket));
      Trace.Stepped(plan, helpers.Raises, 3, log0, helpers.log);
    }
  }

  // ---------------------------------------------------------------------
  // Routing properties

  /** local/local, local/S3 and S3/local make exactly one rclone sync of the
      two `.path` strings; S3/S3 passes the records themselves. */
  lemma DirectRoutes(src: StoragePath, dst: StoragePath, bucket: string, sizeOf: string -> int)
    ensures RouteOf(src.kind, dst.kind) == DirectPaths ==>
      Plan(src, dst, bucket, sizeOf) == [RcloneSync(Text(src.path), Text(dst.path))]
    ensures src.kind == S3 && dst.kind == S3 ==>
      Plan(src, dst, bucket, sizeOf) == [RcloneSync(RecordArg(src), RecordArg(dst))]
  {
  }

  /** PVC to PVC and S3 to S3 never succeed, whatever the environment does:
      one call is made and it raises. */
  lemma SameKindRoutesFail(src: StoragePath, dst: StoragePath, bucket: string, sizeOf: string -> int, raises: Call -> bool)
    requires src.kind == dst.kind && src.kind != Local
    requires forall c :: AlwaysRaises(c) ==> raises(c)
    ensures var plan := Plan(src, dst, bucket, sizeOf);
      !Trace.AllSucceed(plan, raises) && Trace.Executed(plan, raises) == plan && |plan| == 1
  {
    var plan := Plan(src, dst, bucket, sizeOf);
    assert AlwaysRaises(plan[0]);
  }

  /** local -> PVC: create the bucket, sync into it, size it, run the
      transfer job from it, delete it. The delete is issued, with the
      endpoint and name that were created, exactly when every earlier call
      returned. */
  lemma {:induction false} LocalToPvcBucketLifecycle(src: StoragePath, dst: StoragePath, random: string, sizeOf: string -> int, raises: Call -> bool)
    requires src.kind == Local && dst.kind == Pvc
    ensures var b := TempBucketName(random);
      var s3Path := DefaultEndpoint + ":" + b;
      var plan := Plan(src, dst, b, sizeOf);
      var log := Trace.Executed(plan, raises);
      && plan == [ RcloneCreateBucket(DefaultEndpoint, b), RcloneSync(Text(src.path), Text(s3Path)),
                   RcloneGetSize(s3Path), K8sSyncS3ToPvc(s3Path, dst.path, sizeOf(s3Path)),
                   RcloneDeleteBucket(DefaultEndpoint, b) ]
      && (RcloneDeleteBucket(DefaultEndpoint, b) in log <==> Trace.AllSucceed(plan[..4], raises))
  {
    var b := TempBucketName(random);
    var plan := Plan(src, dst, b, sizeOf);
    BucketDeletedIffLegsReturn(plan, raises);
  }

  /** PVC -> local: create the bucket, run the transfer job into it, sync it
      into the SOURCE's `.path`, delete it; the delete is issued exactly when
      every earlier call returned. */
  lemma {:induction false} PvcToLocalBucketLifecycle(src: StoragePath, dst: StoragePath, random: string, sizeOf: string -> int, raises: Call -> bool)
    requires src.kind == Pvc && dst.kind == Local
    ensures var b := TempBucketName(random);
      var s3Path := DefaultEndpoint + ":" + b;
      var plan := Plan(src, dst, b, sizeOf);
      var log := Trace.Executed(plan, raises);
      && plan == [ RcloneCreateBucket(DefaultEndpoint, b), K8sSyncPvcToS3(src.path, s3Path),
                   RcloneSync(Text(s3Path), Text(src.path)), RcloneDeleteBucket(DefaultEndpoint, b) ]
      && (RcloneDeleteBucket(DefaultEndpoint, b) in log <==> Trace.AllSucceed(plan[..3], raises))
  {
    var b := TempBucketName(random);
    var plan := Plan(src, dst, b, sizeOf);
    BucketDeletedIffLegsReturn(plan, raises);
  }

  /** In a bridged plan the delete is last and appears nowhere else, so it
      is issued exactly when every call before it returned. */
  lemma {:induction false} BucketDeletedIffLegsReturn(plan: seq<Call>, raises: Call -> bool)
    requires |plan| > 0 && plan[|plan| - 1].RcloneDeleteBucket?
    requires forall i :: 0 <= i < |plan| - 1 ==> !plan[i].RcloneDeleteBucket?
    ensures plan[|plan| - 1] in Trace.Executed(plan, raises) <==> Trace.AllSucceed(plan[..|plan| - 1], raises)
  {
    var n := |plan| - 1;
    var log := Trace.Executed(plan, raises);
    Trace.ExecutedShape(plan, raises);
    if plan[n] in log {
      var k :| 0 <= k < |log| && log[k] == plan[n];
      Trace.ExecutedOnlyAfterSuccess(plan, raises, k);
      assert k == n;
    }
    if Trace.AllSucceed(plan[..n], raises) {
      assert plan == plan[..n] + [plan[n]];
      Trace.ExecutedAppend(plan[..n], [plan[n]], raises);
      assert log == plan[..n] + [plan[n]];
      assert log[n] == plan[n];
    }
  }

  /** S3 -> PVC sizes the S3 source first and passes that size; PVC -> S3
      passes none. */
  lemma S3PvcRoutes(src: StoragePath, dst: StoragePath, bucket: string, sizeOf: string -> int)
    ensures src.kind == S3 && dst.kind == Pvc ==>
      Plan(src, dst, bucket, sizeOf)
      == [RcloneGetSize(src.path), K8sSyncS3ToPvc(src.path, dst.path, sizeOf(src.path))]
    ensures src.kind == Pvc && dst.kind == S3 ==>
      Plan(src, dst, bucket, sizeOf) == [K8sSyncPvcToS3(src.path, dst.path)]
  {
  }
}
