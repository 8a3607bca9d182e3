/** `api/config.py`: the list of regions is the `REGIONS` environment
    string split at every colon, and must not be empty. */
module Config {
  import opened Common

  /** Python's `s.split(":")`: the pieces between the colons, empty ones included. */
  function Split(s: string): (r: seq<string>)
    ensures |r| > 0
    decreases |s|
  {
    match IndexOf(s, ':')
    case None => [s]
    case Some(i) => [s[..i]] + Split(s[i + 1..])
  }

  /** `":".join(parts)`. */
  function Join(parts: seq<string>): string {
    if |parts| == 0 then ""
    else if |parts| == 1 then parts[0]
    else parts[0] + ":" + Join(parts[1..])
  }

  /** `REGIONS`, from the value of the environment variable. */
  function Regions(env: string): (r: seq<string>)
    ensures |r| > 0
  {
    Split(env)
  }

  /** Joining the pieces with colons gives back the string. */
  lemma {:induction false} JoinSplit(s: string)
    ensures Join(Split(s)) == s
    decreases |s|
  {
    match IndexOf(s, ':')
    case None =>
    case Some(i) =>
      JoinSplit(s[i + 1..]);
      assert s == s[..i] + ":" + s[i + 1..];
  }

  /** No piece contains a colon. */
  lemma {:induction false} SplitNoColon(s: string)
    ensures forall k :: 0 <= k < |Split(s)| ==> ':' !in Split(s)[k]
    decreases |s|
  {
    match IndexOf(s, ':')
    case None =>
    case Some(i) =>
      var rest := Split(s[i + 1..]);
      SplitNoColon(s[i + 1..]);
      assert Split(s) == [s[..i]] + rest;
      forall k | 0 <= k < |Split(s)| ensures ':' !in Split(s)[k] {
        if k > 0 {
          assert Split(s)[k] == rest[k - 1];
        }
      }
  }

  /** There is one piece more than there are colons, so the list is never
      empty, not even for the empty string. */
  lemma {:induction false} SplitLength(s: string)
    ensures |Split(s)| == CountChar(s, ':') + 1
    decreases |s|
  {
    match IndexOf(s, ':')
    case None =>
      CountZero(s, ':');
    case Some(i) =>
      var rest := s[i + 1..];
      SplitLength(rest);
      CountAt(s, i, ':');
      CountZero(s[..i], ':');
      assert |Split(s)| == 1 + |Split(rest)|;
  }

  lemma {:induction false} CountZero(s: string, c: char)
    requires c !in s
    ensures CountChar(s, c) == 0
  {
    if |s| > 0 {
      CountZero(s[1..], c);
    }
  }

  /** Empty pieces are kept: `"a::b"` gives three regions, the middle one
      empty, and `""` gives the single empty region. */
  lemma EmptyRegionsKept()
    ensures Regions("a::b") == ["a", "", "b"]
    ensures Regions("") == [""]
  {
    var s := "a::b";
    assert IndexOf(s, ':') == Some(1);
    assert s[2..] == ":b";
    assert IndexOf(s[2..], ':') == Some(0);
    assert s[2..][1..] == "b";
    assert IndexOf("b", ':') == None;
    assert Split("b") == ["b"];
    assert s[2..][..0] == "";
    assert Split(s[2..]) == [""] + Split("b");
    assert s[..1] == "a";
    assert Split(s) == [s[..1]] + Split(s[2..]);
  }
}
