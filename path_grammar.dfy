// The slash-separated path grammar shared by the storage locators and the
// job-request storage URLs, `[\w.-]+(?:/[\w.-]+)*/?`, as an explicit
// recogniser, and the anchoring rule of Python's `re.match` with a final `$`.
module PathGrammar {
  import opened Common

  // `[\w.-]+(?:/[\w.-]+)*/?`: one or more segments separated by single
  // slashes, optionally followed by one slash.
  predicate PathBody(u: string)
    decreases |u|, 1
  {
    |u| > 0 && IsSegChar(u[0]) && InSegment(u[1..])
  }

  /** The rest of a path after at least one character of a segment. */
  predicate InSegment(v: string)
    decreases |v|, 0
  {
    || |v| == 0
    || (IsSegChar(v[0]) && InSegment(v[1..]))
    || (v[0] == '/' && (|v| == 1 || PathBody(v[1..])))
  }

  /** Every character is a segment character or a slash. */
  predicate InAlphabet(u: string) {
    forall i :: 0 <= i < |u| ==> IsSegChar(u[i]) || u[i] == '/'
  }

  /** No two slashes are adjacent. */
  predicate NoDoubleSlash(u: string) {
    forall i :: 0 <= i < |u| - 1 ==> u[i] != '/' || u[i + 1] != '/'
  }

  /** The recogniser accepts exactly the non-empty strings over `[\w.-/]`
      that do not start with a slash and have no empty segment. */
  lemma {:induction false} PathBodyShape(u: string)
    ensures PathBody(u) <==> |u| > 0 && u[0] != '/' && InAlphabet(u) && NoDoubleSlash(u)
  {
    if |u| > 0 {
      InSegmentShape(u[1..]);
      ShapeTail(u);
    }
  }

  lemma {:induction false} InSegmentShape(v: string)
    ensures InSegment(v) <==> InAlphabet(v) && NoDoubleSlash(v)
    decreases |v|
  {
    if |v| > 0 {
      ShapeTail(v);
      InSegmentShape(v[1..]);
      if v[0] == '/' && |v| > 1 {
        InSegmentShape(v[2..]);
        ShapeTail(v[1..]);
      }
    }
  }

  /** How the two character-level conditions split off the first character. */
  lemma ShapeTail(u: string)
    requires |u| > 0
    ensures InAlphabet(u) <==> (IsSegChar(u[0]) || u[0] == '/') && InAlphabet(u[1..])
    ensures NoDoubleSlash(u) <==>
      (|u| > 1 ==> u[0] != '/' || u[1] != '/') && NoDoubleSlash(u[1..])
  {
    assert forall i :: 0 <= i < |u| - 1 ==> u[1..][i] == u[i + 1];
  }

  /** Neither the colon, the slash nor the newline is a segment character. */
  lemma SeparatorsNotSegChars()
    ensures !IsSegChar(':') && !IsSegChar('/') && !IsSegChar('\n')
  {
  }

  /** A path body contains no colon and no newline. */
  lemma PathBodyNoColon(u: string)
    requires PathBody(u)
    ensures ':' !in u && '\n' !in u
  {
    PathBodyShape(u);
  }

  /** `s` minus one final newline, when it has one. */
  function DropFinalNewline(s: string): (r: string)
    ensures s == r || s == r + "\n"
  {
    if |s| > 0 && s[|s| - 1] == '\n' then s[..|s| - 1] else s
  }

  /** `re.match('^(body)$', s)`: Python's `$` matches at the end of the string
      and also just before a final newline, so the body is matched against
      `s` itself or against `s` without that newline. The result is the text
      the body matched. */
  function AnchoredMatch(body: string -> bool, s: string): (r: Option<string>)
    ensures r.Some? ==> body(r.value) && (r.value == s || r.value + "\n" == s)
    ensures r.None? ==> !body(s) && !body(DropFinalNewline(s))
  {
    if body(s) then Some(s)
    else if |s| > 0 && s[|s| - 1] == '\n' && body(s[..|s| - 1]) then Some(s[..|s| - 1])
    else None
  }
}
