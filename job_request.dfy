/** `api/models/job_request.py`: the validators of a job request. Storage
    URLs (`pvc://NAME` or `s3://REGION:PATH`), mountpoints, job and image
    names, CPU and memory quantities, the per-field mountpoint check, and
    the rule that inputs and outputs use distinct mountpoints. Every
    pattern is the source's regular expression, anchored with `re.match`
    and a final `$`, written as an explicit recogniser. */
module JobRequest {
  import opened Common
  import opened PathGrammar
  import Config

  // ---------------------------------------------------------------------
  // Names

  /** `[\w_.-]+`. */
  predicate NameBody(u: string) {
    |u| > 0 && forall i :: 0 <= i < |u| ==> IsSegChar(u[i])
  }

  predicate IsImageChar(c: char) {
    IsSegChar(c) || c == '/' || c == ':'
  }

  /** `[\w_./:-]+`. */
  predicate ImageBody(u: string) {
    |u| > 0 && forall i :: 0 <= i < |u| ==> IsImageChar(u[i])
  }

  function IsValidName(name: string): bool {
    AnchoredMatch(NameBody, name).Some?
  }

  function IsValidImageName(name: string): bool {
    AnchoredMatch(ImageBody, name).Some?
  }

  /** Every valid job name is a valid image name. */
  lemma NameIsImageName(name: string)
    ensures IsValidName(name) ==> IsValidImageName(name)
  {
    if IsValidName(name) {
      var m := AnchoredMatch(NameBody, name).value;
      assert ImageBody(m);
    }
  }

  /** A valid name is non-empty and uses only word characters, `.` and `-`,
      apart from one final newline that `$` lets through. */
  lemma NameShape(name: string)
    ensures IsValidName(name) <==> NameBody(name) || (|name| > 1 && name[|name| - 1] == '\n' && NameBody(name[..|name| - 1]))
  {
  }

  // ---------------------------------------------------------------------
  // Mountpoints

  /** `(?:\/[\w.-]+)*\/?`: slash-led segments, then at most one slash. */
  predicate MountpointBody(u: string) {
    |u| == 0 || (u[0] == '/' && (|u| == 1 || PathBody(u[1..])))
  }

  function IsValidMountpoint(path: string): bool {
    AnchoredMatch(MountpointBody, path).Some?
  }

  /** A mountpoint is the empty string, or starts with a slash, uses only
      segment characters and slashes, and never has two slashes in a row. */
  lemma MountpointShape(u: string)
    ensures MountpointBody(u) <==> |u| == 0 || (u[0] == '/' && InAlphabet(u) && NoDoubleSlash(u))
  {
    if |u| > 1 {
      PathBodyShape(u[1..]);
      ShapeTail(u);
    } else if |u| == 1 {
      assert InAlphabet(u) <==> IsSegChar(u[0]) || u[0] == '/';
    }
  }

  lemma MountpointExamples()
    ensures IsValidMountpoint("") && IsValidMountpoint("/") && IsValidMountpoint("/a/b/")
    ensures !IsValidMountpoint("a") && !IsValidMountpoint("//")
  {
    var good := "/a/b/";
    assert good[1..] == "a/b/";
    assert good[1..][1..] == "/b/";
    assert good[1..][1..][1..] == "b/";
    assert PathBody(good[1..][1..][1..]) by {
      assert "b/"[1..] == "/";
    }
    assert MountpointBody(good);
    assert "//"[1..] == "/";
    assert !MountpointBody("//");
  }

  // ---------------------------------------------------------------------
  // Storage URLs

  /** The result of `parse_storage_url`: the storage type and its groups. */
  datatype StorageUrl = PvcVolume(name: string) | S3Object(region: string, path: string) | Unrecognised

  /** `([\w.-]+)/?`. */
  predicate PvcNameBody(n: string) {
    NameBody(n) || (|n| > 1 && n[|n| - 1] == '/' && NameBody(n[..|n| - 1]))
  }

  /** `pvc://([\w.-]+)/?`. */
  predicate PvcUrlBody(u: string) {
    |u| >= 6 && u[..6] == "pvc://" && PvcNameBody(u[6..])
  }

  /** The group of a PVC URL: the name without the trailing slash. */
  function PvcGroup(u: string): string
    requires PvcUrlBody(u)
  {
    var n := u[6..];
    if n[|n| - 1] == '/' then n[..|n| - 1] else n
  }

  /** `s3://(REGION1|REGION2|...):([\w.-]+(?:\/[\w.-]+)*\/?)`, with the
      region and path groups. A region is taken up to the first colon. */
  function S3Split(u: string, regions: seq<string>): Option<(string, string)> {
    if |u| < 5 || u[..5] != "s3://" then None
    else
      var rest := u[5..];
      match IndexOf(rest, ':')
      case None => None
      case Some(i) =>
        if rest[..i] in regions && PathBody(rest[i + 1..]) then Some((rest[..i], rest[i + 1..])) else None
  }

  /** `parse_storage_url`: the PVC pattern first, then the S3 one. */
  function ParseStorageUrl(url: string, regions: seq<string>): StorageUrl {
    match AnchoredMatch(PvcUrlBody, url)
    case Some(m) => PvcVolume(PvcGroup(m))
    case None =>
      match AnchoredMatch(u => S3Split(u, regions).Some?, url)
      case Some(m) => S3Object(S3Split(m, regions).value.0, S3Split(m, regions).value.1)
      case None => Unrecognised
  }

  function IsValidStorageUrl(url: string, regions: seq<string>): bool {
    ParseStorageUrl(url, regions) != Unrecognised
  }

  /** The four ways of writing a PVC URL for a name. */
  function PvcSpellings(n: string): seq<string> {
    ["pvc://" + n, "pvc://" + n + "/", "pvc://" + n + "\n", "pvc://" + n + "/\n"]
  }

  /** A URL parses as the PVC `n` exactly when `n` is a name and the URL is
      `pvc://n`, with at most one slash after it (and the final newline `$`
      allows). */
  lemma PvcUrlShape(url: string, regions: seq<string>, n: string)
    ensures ParseStorageUrl(url, regions) == PvcVolume(n) <==> NameBody(n) && url in PvcSpellings(n)
  {
    if ParseStorageUrl(url, regions) == PvcVolume(n) {
      PvcUrlOnly(url, regions);
    }
    if NameBody(n) && url in PvcSpellings(n) {
      PvcUrlParses(url, regions, n);
    }
  }

  lemma PvcUrlOnly(url: string, regions: seq<string>)
    requires ParseStorageUrl(url, regions).PvcVolume?
    ensures var n := ParseStorageUrl(url, regions).name; NameBody(n) && url in PvcSpellings(n)
  {
    var m := AnchoredMatch(PvcUrlBody, url).value;
    var n := PvcGroup(m);
    PvcGroupShape(m);
    assert m == "pvc://" + m[6..];
    if m[6..] == n {
      assert m == "pvc://" + n;
    } else {
      assert m == "pvc://" + n + "/";
      assert m + "\n" == "pvc://" + n + "/\n";
    }
  }

  lemma PvcUrlParses(url: string, regions: seq<string>, n: string)
    requires NameBody(n) && url in PvcSpellings(n)
    ensures ParseStorageUrl(url, regions) == PvcVolume(n)
  {
    SeparatorsNotSegChars();
    var plain := "pvc://" + n;
    var slashed := "pvc://" + n + "/";
    assert plain[..6] == "pvc://" && plain[6..] == n;
    assert slashed[..6] == "pvc://" && slashed[6..] == n + "/";
    assert (n + "/")[..|n|] == n;
    assert PvcUrlBody(plain) && PvcUrlBody(slashed);
    assert PvcGroup(plain) == n;
    assert PvcGroup(slashed) == n;
    if url == plain + "\n" || url == slashed + "\n" {
      var m := url[..|url| - 1];
      assert m == plain || m == slashed;
      assert !PvcUrlBody(url) by {
        assert url[6..][|url[6..]| - 1] == '\n';
        assert url[6..][..|url[6..]| - 1] == m[6..];
      }
      assert AnchoredMatch(PvcUrlBody, url) == Some(m);
    } else {
      assert url == plain || url == slashed;
      assert AnchoredMatch(PvcUrlBody, url) == Some(url);
    }
  }

  lemma PvcGroupShape(m: string)
    requires PvcUrlBody(m)
    ensures NameBody(PvcGroup(m))
    ensures m[6..] == PvcGroup(m) || m[6..] == PvcGroup(m) + "/"
  {
    var n := m[6..];
    SeparatorsNotSegChars();
    if n[|n| - 1] == '/' {
      assert !NameBody(n);
      assert n == n[..|n| - 1] + "/";
    }
  }

  /** With regions free of colons, as `Config.Regions` makes them, the S3
      split takes exactly a listed region, a colon, and a path. */
  lemma S3SplitShape(u: string, regions: seq<string>, r: string, p: string)
    requires forall k :: 0 <= k < |regions| ==> ':' !in regions[k]
    ensures S3Split(u, regions) == Some((r, p)) <==> u == "s3://" + r + ":" + p && r in regions && PathBody(p)
  {
    if u == "s3://" + r + ":" + p && r in regions && PathBody(p) {
      S3SplitBuilt(regions, r, p);
    }
    if S3Split(u, regions) == Some((r, p)) {
      S3SplitParts(u, regions);
    }
  }

  lemma S3SplitBuilt(regions: seq<string>, r: string, p: string)
    requires ':' !in r && r in regions && PathBody(p)
    ensures S3Split("s3://" + r + ":" + p, regions) == Some((r, p))
  {
    var u := "s3://" + r + ":" + p;
    var rest := u[5..];
    assert u[..5] == "s3://";
    assert rest == r + ":" + p;
    assert rest[|r|] == ':';
    assert rest[..|r|] == r;
    assert IndexOf(rest, ':') == Some(|r|);
    assert rest[|r| + 1..] == p;
  }

  lemma S3SplitParts(u: string, regions: seq<string>)
    requires S3Split(u, regions).Some?
    ensures var (r, p) := S3Split(u, regions).value;
      u == "s3://" + r + ":" + p && r in regions && PathBody(p)
  {
    var rest := u[5..];
    var i := IndexOf(rest, ':').value;
    assert S3Split(u, regions).value == (rest[..i], rest[i + 1..]);
    JoinAround(u, 5, 5 + i);
  }

  /** A text is the part before `j`, the character at `j`, and the part
      after, with its first `k` characters kept as they are. */
  lemma JoinAround(u: string, k: nat, j: nat)
    requires k <= j < |u|
    ensures u == u[..k] + u[k..][..j - k] + [u[j]] + u[k..][j - k + 1..]
  {
    assert u[k..][..j - k] == u[k..j];
    assert u[k..][j - k + 1..] == u[j + 1..];
    assert u == u[..k] + u[k..j] + [u[j]] + u[j + 1..];
  }

  /** A URL parses as the S3 object `(r, p)` exactly when it is
      `s3://r:p` (or that with a final newline), `r` is a configured region
      and `p` a path. */
  lemma S3UrlShape(url: string, regions: seq<string>, r: string, p: string)
    requires forall k :: 0 <= k < |regions| ==> ':' !in regions[k]
    ensures ParseStorageUrl(url, regions) == S3Object(r, p) <==>
      r in regions && PathBody(p) && (url == "s3://" + r + ":" + p || url == "s3://" + r + ":" + p + "\n")
  {
    var plain := "s3://" + r + ":" + p;
    NotPvc(url);
    if ParseStorageUrl(url, regions) == S3Object(r, p) {
      var m := AnchoredMatch(u => S3Split(u, regions).Some?, url).value;
      S3SplitShape(m, regions, r, p);
    }
    if r in regions && PathBody(p) && (url == plain || url == plain + "\n") {
      S3SplitShape(plain, regions, r, p);
      if url == plain + "\n" {
        assert url[..|url| - 1] == plain;
        assert S3Split(url, regions).None? by {
          NewlineNotS3(url, regions);
        }
      }
    }
  }

  /** An S3 URL (even with a final newline) never matches the PVC pattern. */
  lemma NotPvc(url: string)
    ensures |url| >= 5 && url[..5] == "s3://" ==> AnchoredMatch(PvcUrlBody, url).None?
  {
    if |url| >= 5 && url[..5] == "s3://" {
      var m := DropFinalNewline(url);
      assert m[0] == url[0] == 's';
    }
  }

  /** A URL ending in a newline is not itself an S3 URL: paths hold no newline. */
  lemma NewlineNotS3(u: string, regions: seq<string>)
    requires |u| > 0 && u[|u| - 1] == '\n'
    ensures S3Split(u, regions).None?
  {
    if S3Split(u, regions).Some? {
      var rest := u[5..];
      var i := IndexOf(rest, ':').value;
      PathBodyNoColon(rest[i + 1..]);
    }
  }

  // ---------------------------------------------------------------------
  // The per-field mountpoint check

  function MountpointMessage(mountpoint: string): string {
    "Invalid mountpoint \"" + mountpoint + "\""
  }

  function UrlMessage(mountpoint: string, url: string): string {
    "Invalid URL for mounpoint \"" + mountpoint + "\": \"" + url + "\""
  }

  /** The errors one entry contributes: its mountpoint's, then its URL's. */
  function EntryErrors(mountpoint: string, url: string, regions: seq<string>): seq<string> {
    (if IsValidMountpoint(mountpoint) then [] else [MountpointMessage(mountpoint)])
    + (if IsValidStorageUrl(url, regions) then [] else [UrlMessage(mountpoint, url)])
  }

  /** The errors of all entries, in order. */
  function MountpointErrors(d: seq<(string, string)>, regions: seq<string>): seq<string> {
    if |d| == 0 then []
    else MountpointErrors(d[..|d| - 1], regions) + EntryErrors(d[|d| - 1].0, d[|d| - 1].1, regions)
  }

  /** `'\n'.join(lines)`. */
  function JoinLines(lines: seq<string>): string {
    if |lines| == 0 then ""
    else if |lines| == 1 then lines[0]
    else JoinLines(lines[..|lines| - 1]) + "\n" + lines[|lines| - 1]
  }

  /** `validate_mountpoints`: check every entry, then raise with all the
      errors, one per line, or return true when there are none. */
  method ValidateMountpoints(d: seq<(string, string)>, regions: seq<string>) returns (r: Result<bool, string>)
    ensures r.Ok? <==> forall i :: 0 <= i < |d| ==> IsValidMountpoint(d[i].0) && IsValidStorageUrl(d[i].1, regions)
    ensures r.Ok? ==> r.value
    ensures r.Err? ==> r.error == JoinLines(MountpointErrors(d, regions))
  {
    var errors: seq<string> := [];
    var i := 0;
    while i < |d|
      invariant 0 <= i <= |d|
      invariant errors == MountpointErrors(d[..i], regions)
    {
      var (mountpoint, url) := d[i];
      ghost var before := errors;
      MountpointErrorsStep(d, regions, i);
      if !IsValidMountpoint(mountpoint) {
        errors := errors + [MountpointMessage(mountpoint)];
      }
      if !IsValidStorageUrl(url, regions) {
        errors := errors + [UrlMessage(mountpoint, url)];
      }
      assert errors == before + EntryErrors(mountpoint, url, regions);
      i := i + 1;
    }
    assert d[..|d|] == d;
    MountpointErrorsEmpty(d, regions);
    if |errors| > 0 {
      r := Err(JoinLines(errors));
    } else {
      r := Ok(true);
    }
  }

  /** The errors of one more entry follow those of the entries before it. */
  lemma MountpointErrorsStep(d: seq<(string, string)>, regions: seq<string>, i: nat)
    requires i < |d|
    ensures MountpointErrors(d[..i + 1], regions) == MountpointErrors(d[..i], regions) + EntryErrors(d[i].0, d[i].1, regions)
  {
    assert d[..i + 1][..i] == d[..i];
  }

  /** No error is recorded exactly when every mountpoint and every URL is valid. */
  lemma {:induction false} MountpointErrorsEmpty(d: seq<(string, string)>, regions: seq<string>)
    ensures MountpointErrors(d, regions) == [] <==>
      forall i :: 0 <= i < |d| ==> IsValidMountpoint(d[i].0) && IsValidStorageUrl(d[i].1, regions)
  {
    if |d| > 0 {
      MountpointErrorsEmpty(d[..|d| - 1], regions);
      assert forall i :: 0 <= i < |d| - 1 ==> d[..|d| - 1][i] == d[i];
    }
  }

  /** Each invalid mountpoint and each invalid URL gets its own message. */
  lemma {:induction false} MountpointErrorsRecorded(d: seq<(string, string)>, regions: seq<string>, i: nat)
    requires i < |d|
    ensures !IsValidMountpoint(d[i].0) ==> MountpointMessage(d[i].0) in MountpointErrors(d, regions)
    ensures !IsValidStorageUrl(d[i].1, regions) ==> UrlMessage(d[i].0, d[i].1) in MountpointErrors(d, regions)
  {
    if i < |d| - 1 {
      MountpointErrorsRecorded(d[..|d| - 1], regions, i);
      assert d[..|d| - 1][i] == d[i];
    }
  }

  // ---------------------------------------------------------------------
  // Inputs and outputs

  const DuplicateKeysMessage := "Duplicate keys in inputs and outputs dictionary."

  function Keys(d: seq<(string, string)>): set<string> {
    set i | 0 <= i < |d| :: d[i].0
  }

  /** `validate_input_output_nonoverlapping`: the schema error, attached to
      both fields, when some mountpoint is both an input and an output. */
  function ValidateNonOverlapping(inputs: seq<(string, string)>, outputs: seq<(string, string)>)
    : (r: Result<(), map<string, string>>)
    ensures r.Ok? <==> forall i, j :: 0 <= i < |inputs| && 0 <= j < |outputs| ==> inputs[i].0 != outputs[j].0
    ensures r.Err? ==> r.error == map["inputs" := DuplicateKeysMessage, "outputs" := DuplicateKeysMessage]
  {
    if Keys(inputs) * Keys(outputs) != {} then
      var k :| k in Keys(inputs) * Keys(outputs);
      var i :| 0 <= i < |inputs| && inputs[i].0 == k;
      var j :| 0 <= j < |outputs| && outputs[j].0 == k;
      Err(map["inputs" := DuplicateKeysMessage, "outputs" := DuplicateKeysMessage])
    else
      assert forall i, j :: 0 <= i < |inputs| && 0 <= j < |outputs| ==> inputs[i].0 != outputs[j].0 by {
        forall i, j | 0 <= i < |inputs| && 0 <= j < |outputs|
          ensures inputs[i].0 != outputs[j].0
        {
          assert inputs[i].0 in Keys(inputs);
          assert outputs[j].0 in Keys(outputs);
          assert inputs[i].0 !in Keys(inputs) * Keys(outputs);
        }
      }
      Ok(())
  }

  // ---------------------------------------------------------------------
  // CPU and memory quantities

  /** A YAML value given for a quantity: text or an integer. */
  datatype Quantity = Text(text: string) | Number(n: int)

  /** `re.match` on an integer raises `TypeError`. */
  const NotAStringMessage := "expected string or bytes-like object"

  predicate IsNumChar(c: char) {
    IsDigit(c) || c == '.'
  }

  /** `[0-9.]+`. */
  predicate NumBody(u: string) {
    |u| > 0 && forall i :: 0 <= i < |u| ==> IsNumChar(u[i])
  }

  /** `[0-9.]+m?`. */
  predicate CpuBody(u: string) {
    NumBody(u) || (|u| > 1 && u[|u| - 1] == 'm' && NumBody(u[..|u| - 1]))
  }

  /** `is_valid_resource_cpu`. The test `cpu is int` compares with the type
      object itself and so never holds: an integer reaches the pattern and
      raises. */
  function IsValidResourceCpu(q: Quantity): Result<bool, string> {
    match q
    case Number(_) => Err(NotAStringMessage)
    case Text(s) => Ok(AnchoredMatch(CpuBody, s).Some?)
  }

  const MemorySuffixes: seq<string> := ["E", "P", "T", "G", "M", "k", "Ei", "Pi", "Ti", "Gi", "Mi", "Ki"]

  /** `[0-9]+`. */
  predicate DigitsBody(u: string) {
    |u| > 0 && forall i :: 0 <= i < |u| ==> IsDigit(u[i])
  }

  /** `-?[0-9]+`. */
  predicate ExponentBody(u: string) {
    DigitsBody(u) || (|u| > 1 && u[0] == '-' && DigitsBody(u[1..]))
  }

  /** `[0-9.]+(?:e-?[0-9]+)?`: the mantissa has no `e`, so an exponent starts
      at the first `e`. */
  predicate NumberWithExponent(v: string) {
    NumBody(v)
    || match IndexOf(v, 'e')
       case None => false
       case Some(i) => NumBody(v[..i]) && ExponentBody(v[i + 1..])
  }

  /** The number followed by one of the suffixes, tried in list order. */
  predicate WithSuffix(u: string, suffixes: seq<string>) {
    |suffixes| > 0
    && ((|suffixes[0]| <= |u| && u[|u| - |suffixes[0]|..] == suffixes[0]
         && NumberWithExponent(u[..|u| - |suffixes[0]|]))
        || WithSuffix(u, suffixes[1..]))
  }

  /** `[0-9.]+(?:e-?[0-9]+)?(?:E|P|T|G|M|k|Ei|Pi|Ti|Gi|Mi|Ki)?`. */
  predicate MemoryBody(u: string) {
    NumberWithExponent(u) || WithSuffix(u, MemorySuffixes)
  }

  /** `is_valid_resource_memory`, with the same never-taken `is int` test. */
  function IsValidResourceMemory(q: Quantity): Result<bool, string> {
    match q
    case Number(_) => Err(NotAStringMessage)
    case Text(s) => Ok(AnchoredMatch(MemoryBody, s).Some?)
  }

  /** An integer quantity raises in both validators instead of being accepted. */
  lemma IntegerQuantitiesRaise(n: int)
    ensures IsValidResourceCpu(Number(n)) == Err(NotAStringMessage)
    ensures IsValidResourceMemory(Number(n)) == Err(NotAStringMessage)
  {
  }

  /** A plain number is a valid CPU and a valid memory quantity; the
      millicore suffix is valid only for CPU. */
  lemma QuantityRelations(u: string)
    requires NumBody(u)
    ensures CpuBody(u) && MemoryBody(u)
    ensures CpuBody(u + "m") && !MemoryBody(u + "m")
  {
    var um := u + "m";
    assert um[..|um| - 1] == u;
    assert !NumBody(um) by { assert !IsNumChar(um[|um| - 1]); }
    assert 'e' !in um by {
      assert forall i :: 0 <= i < |u| ==> um[i] == u[i] && IsNumChar(u[i]);
    }
    assert !NumberWithExponent(um);
    NoSuffixM(um, MemorySuffixes);
  }

  /** No memory suffix ends in `m`. */
  lemma {:induction false} NoSuffixM(um: string, suffixes: seq<string>)
    requires |um| > 0 && um[|um| - 1] == 'm'
    requires forall k :: 0 <= k < |suffixes| ==> |suffixes[k]| > 0 && suffixes[k][|suffixes[k]| - 1] != 'm'
    ensures !WithSuffix(um, suffixes)
  {
    if |suffixes| > 0 {
      var s := suffixes[0];
      NoSuffixM(um, suffixes[1..]);
    }
  }

  /** A number with a power-of-two suffix is a memory quantity. */
  lemma MemorySuffixExample()
    ensures MemoryBody("256Mi")
  {
    var s := "256Mi";
    assert s[..3] == "256" && s[3..] == "Mi";
    assert NumBody("256");
    assert MemorySuffixes[10] == "Mi";
    assert WithSuffix(s, MemorySuffixes[10..]);
    assert MemorySuffixes[9..][1..] == MemorySuffixes[10..];
    assert WithSuffix(s, MemorySuffixes[9..]);
    WithSuffixLater(s, MemorySuffixes, 9);
  }

  /** A match against a later part of the suffix list is a match. */
  lemma {:induction false} WithSuffixLater(u: string, suffixes: seq<string>, k: nat)
    requires k <= |suffixes| && WithSuffix(u, suffixes[k..])
    ensures WithSuffix(u, suffixes)
  {
    if k > 0 {
      assert suffixes[k - 1..][1..] == suffixes[k..];
      WithSuffixLater(u, suffixes, k - 1);
    }
  }

  /** A number with an exponent is a memory quantity. */
  lemma MemoryExponentExample()
    ensures MemoryBody("1e3")
  {
    var e := "1e3";
    assert NumberWithExponent(e) by {
      assert e[0] != 'e';
      assert IndexOf(e, 'e') == Some(1);
      assert e[..1] == "1" && NumBody("1");
      assert e[2..] == "3" && ExponentBody("3");
    }
  }

  /** A suffix without a number is not a memory quantity. */
  lemma BareSuffixExample()
    ensures !MemoryBody("Mi")
  {
    assert !IsNumChar("Mi"[0]) && !IsNumChar("Mi"[1]);
    assert !NumBody("Mi");
    assert 'e' !in "Mi";
    NoNumberSuffix("Mi", MemorySuffixes);
  }

  /** A text with no digit or dot is not a memory quantity. */
  lemma {:induction false} NoNumberSuffix(u: string, suffixes: seq<string>)
    requires forall i :: 0 <= i < |u| ==> !IsNumChar(u[i])
    ensures !WithSuffix(u, suffixes)
  {
    if |suffixes| > 0 {
      var s := suffixes[0];
      if |s| <= |u| {
        var v := u[..|u| - |s|];
        assert |v| > 0 ==> !IsNumChar(v[0]) by {
          if |v| > 0 { assert v[0] == u[0]; }
        }
        assert !NumBody(v);
        match IndexOf(v, 'e')
        case None =>
        case Some(i) =>
          assert i > 0 ==> !IsNumChar(v[..i][0]);
      }
      NoNumberSuffix(u, suffixes[1..]);
    }
  }
}
