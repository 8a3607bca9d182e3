/** Python's `shlex.quote`, and the non-POSIX `shlex.split` with which the
    executor's `run_command` (`executor/src/util.py`) turns a command line
    back into the argument vector it runs. Non-POSIX splitting keeps quote
    characters inside the arguments. */
module Shell {
  import opened Common

  /** The characters `shlex.quote` leaves as they are: `[\w@%+=:,./-]`, with
      `\w` in its ASCII sense, as `shlex` compiles it. */
  predicate SafeChar(c: char) {
    IsWordChar(c) || c == '@' || c == '%' || c == '+' || c == '=' || c == ':' || c == ','
    || c == '.' || c == '/' || c == '-'
  }

  predicate AllSafe(s: string) {
    forall i :: 0 <= i < |s| ==> SafeChar(s[i])
  }

  /** The text `"'"`: an apostrophe in double quotes. */
  const QuotedApostrophe := "\"'\""

  /** One character of `s.replace("'", "'\"'\"'")`: an apostrophe closes the
      quoted text, is written in double quotes, and reopens it. */
  function EscapeChar(c: char): string {
    if c == '\'' then "'" + QuotedApostrophe + "'" else [c]
  }

  /** `s.replace("'", "'\"'\"'")`. */
  function EscapeApostrophes(s: string): (r: string)
    ensures '\'' !in s ==> r == s
  {
    if |s| == 0 then "" else EscapeChar(s[0]) + EscapeApostrophes(s[1..])
  }

  /** `shlex.quote(s)`: the empty string becomes `''`, a string of safe
      characters is left as it is, and any other string is put in
      apostrophes. */
  function Quote(s: string): (r: string)
    ensures s == "" ==> r == "''"
    ensures s != "" && AllSafe(s) ==> r == s
    ensures !AllSafe(s) && '\'' !in s ==> r == "'" + s + "'"
    ensures !AllSafe(s) ==> |r| >= 2 && r[0] == '\'' && r[|r| - 1] == '\''
  {
    if s == "" then "''"
    else if AllSafe(s) then s
    else "'" + EscapeApostrophes(s) + "'"
  }

  /** The characters `shlex` splits at. */
  predicate IsShellSpace(c: char) {
    c == ' ' || c == '\t' || c == '\r' || c == '\n'
  }

  predicate IsQuoteChar(c: char) {
    c == '\'' || c == '"'
  }

  /** Where the word at the start of `s` ends: at the first whitespace. */
  function WordEnd(s: string): (k: nat)
    ensures k <= |s|
    ensures forall i :: 0 <= i < k ==> !IsShellSpace(s[i])
    ensures k < |s| ==> IsShellSpace(s[k])
  {
    if |s| == 0 || IsShellSpace(s[0]) then 0 else 1 + WordEnd(s[1..])
  }

  /** An argument in front of the rest, unless the rest raised. */
  function Prepend(arg: string, rest: Result<seq<string>, string>): Result<seq<string>, string> {
    match rest
    case Err(e) => Err(e)
    case Ok(args) => Ok([arg] + args)
  }

  const NoClosingQuotation := "No closing quotation"

  /** `shlex.split(s, posix=False)`. Whitespace separates arguments. An
      argument that starts with a quote character runs to the matching
      quote, both quotes included, and ends there; an unmatched one raises.
      Any other argument runs to the next whitespace, quote characters
      included. */
  function SplitNonPosix(s: string): Result<seq<string>, string>
    decreases |s|
  {
    if |s| == 0 then Ok([])
    else if IsShellSpace(s[0]) then SplitNonPosix(s[1..])
    else if IsQuoteChar(s[0]) then
      match IndexOf(s[1..], s[0])
      case None => Err(NoClosingQuotation)
      case Some(j) => Prepend(s[..j + 2], SplitNonPosix(s[j + 2..]))
    else
      var k := WordEnd(s);
      Prepend(s[..k], SplitNonPosix(s[k..]))
  }

  /** A word: no whitespace, and not opening a quoted argument. */
  predicate PlainWord(w: string) {
    |w| > 0 && !IsQuoteChar(w[0]) && forall i :: 0 <= i < |w| ==> !IsShellSpace(w[i])
  }

  /** A space before the rest is skipped. */
  lemma SplitSpace(rest: string)
    ensures SplitNonPosix(" " + rest) == SplitNonPosix(rest)
  {
    assert (" " + rest)[1..] == rest;
  }

  /** A plain word followed by a space is one argument. */
  lemma SplitWord(w: string, rest: string)
    requires PlainWord(w)
    ensures SplitNonPosix(w + " " + rest) == Prepend(w, SplitNonPosix(rest))
  {
    var s := w + " " + rest;
    assert s[|w|] == ' ';
    var k := WordEnd(s);
    assert k == |w|;
    assert s[..k] == w;
    assert s[k..] == " " + rest;
    SplitSpace(rest);
  }

  /** Text between two equal quote characters, which it does not contain,
      is one argument, quotes included. */
  lemma SplitQuoted(q: char, x: string, rest: string)
    requires IsQuoteChar(q) && q !in x
    ensures SplitNonPosix([q] + x + [q] + rest) == Prepend([q] + x + [q], SplitNonPosix(rest))
  {
    var s := [q] + x + [q] + rest;
    var t := s[1..];
    assert t == x + [q] + rest;
    assert t[|x|] == q;
    var j := IndexOf(t, q).value;
    assert j == |x|;
    assert s[..j + 2] == [q] + x + [q];
    assert s[j + 2..] == rest;
  }

  /** A shape: the text of `x` in apostrophes. */
  function InApostrophes(x: string): string {
    "'" + x + "'"
  }

  /** A quoted argument in apostrophes on its own. */
  lemma SplitApostrophesAlone(x: string)
    requires '\'' !in x
    ensures SplitNonPosix(InApostrophes(x)) == Ok([InApostrophes(x)])
  {
    assert InApostrophes(x) == ['\''] + x + ['\''] + "";
    SplitQuoted('\'', x, "");
    assert SplitNonPosix("") == Ok([]);
    assert [InApostrophes(x)] + [] == [InApostrophes(x)];
  }

  /** Three plain words in front of a tail add three arguments in front of
      the tail's. */
  lemma SplitAfterWords(a: string, b: string, c: string, tail: string, args: seq<string>)
    requires PlainWord(a) && PlainWord(b) && PlainWord(c)
    requires SplitNonPosix(tail) == Ok(args)
    ensures SplitNonPosix(a + " " + b + " " + c + " " + tail) == Ok([a, b, c] + args)
  {
    assert a + " " + b + " " + c + " " + tail == a + " " + (b + " " + (c + " " + tail));
    SplitWord(a, b + " " + (c + " " + tail));
    SplitWord(b, c + " " + tail);
    SplitWord(c, tail);
    assert [a] + ([b] + ([c] + args)) == [a, b, c] + args;
  }

  /** Escaping works character by character. */
  lemma {:induction false} EscapeAppend(x: string, y: string)
    ensures EscapeApostrophes(x + y) == EscapeApostrophes(x) + EscapeApostrophes(y)
  {
    if |x| > 0 {
      assert (x + y)[0] == x[0];
      assert (x + y)[1..] == x[1..] + y;
      EscapeAppend(x[1..], y);
    } else {
      assert x + y == y;
    }
  }

  /** `quote` of a string with one apostrophe: the two sides in apostrophes,
      joined by the apostrophe in double quotes. */
  lemma QuoteOneApostrophe(a: string, b: string)
    requires '\'' !in a && '\'' !in b
    ensures Quote(a + "'" + b) == InApostrophes(a) + QuotedApostrophe + InApostrophes(b)
  {
    ApostropheUnsafe(a, b);
    AppendRegroup3(a, "'", b);
    EscapeAppend(a, "'" + b);
    EscapeAppend("'", b);
    EscapeSingle('\'');
    Regroup("'", a, QuotedApostrophe, b);
  }

  /** An apostrophe is not a safe character. */
  lemma ApostropheUnsafe(a: string, b: string)
    ensures !AllSafe(a + "'" + b)
  {
    var s := a + "'" + b;
    assert s[|a|] == '\'';
    assert !SafeChar(s[|a|]);
  }

  lemma AppendRegroup3(x: string, y: string, z: string)
    ensures x + y + z == x + (y + z)
  {
  }

  /** Escaping a single character. */
  lemma EscapeSingle(c: char)
    ensures EscapeApostrophes([c]) == EscapeChar(c)
  {
    assert [c][1..] == [];
  }

  lemma Regroup(p: string, a: string, m: string, b: string)
    ensures p + (a + ((p + m + p) + b)) + p == (p + a + p) + m + (p + b + p)
  {
  }

  /** A quoted argument, then the arguments of the rest. */
  lemma SplitQuotedThen(q: char, x: string, w: string, rest: string, args: seq<string>)
    requires IsQuoteChar(q) && q !in x && w == [q] + x + [q] && SplitNonPosix(rest) == Ok(args)
    ensures SplitNonPosix(w + rest) == Ok([w] + args)
  {
    SplitQuoted(q, x, rest);
  }

  /** An apostrophe in double quotes is one argument. */
  lemma SplitQuotedApostropheThen(rest: string, args: seq<string>)
    requires SplitNonPosix(rest) == Ok(args)
    ensures SplitNonPosix(QuotedApostrophe + rest) == Ok([QuotedApostrophe] + args)
  {
    SplitQuotedThen('"', "'", QuotedApostrophe, rest, args);
  }

  /** Text in apostrophes is one argument, even with no space after it. */
  lemma SplitApostrophesThen(x: string, rest: string, args: seq<string>)
    requires '\'' !in x && SplitNonPosix(rest) == Ok(args)
    ensures SplitNonPosix(InApostrophes(x) + rest) == Ok([InApostrophes(x)] + args)
  {
    SplitQuotedThen('\'', x, InApostrophes(x), rest, args);
  }

  /** That quoted text splits into three arguments, then what follows. */
  lemma SplitQuotedApostrophe(a: string, b: string, x: string)
    requires '\'' !in a && '\'' !in b && '\'' !in x
    ensures SplitNonPosix(InApostrophes(a) + QuotedApostrophe + InApostrophes(b) + " " + InApostrophes(x))
         == Ok([InApostrophes(a), QuotedApostrophe, InApostrophes(b), InApostrophes(x)])
  {
    var qa, qb, qx := InApostrophes(a), InApostrophes(b), InApostrophes(x);
    var rest := qb + " " + qx;
    SplitQuotedThenQuoted(b, x);
    SplitQuotedApostropheThen(rest, [qb, qx]);
    SplitApostrophesThen(a, QuotedApostrophe + rest, [QuotedApostrophe] + [qb, qx]);
    SplitRegroup(qa, QuotedApostrophe, qb, qx);
  }

  /** Regrouping the text and the arguments of four arguments. */
  lemma SplitRegroup(w: string, m: string, y: string, z: string)
    requires SplitNonPosix(w + (m + (y + " " + z))) == Ok([w] + ([m] + [y, z]))
    ensures SplitNonPosix(w + m + y + " " + z) == Ok([w, m, y, z])
  {
    AppendRegroup(w, m, y, z);
    assert [w] + ([m] + [y, z]) == [w, m, y, z];
  }

  lemma AppendRegroup(w: string, m: string, y: string, z: string)
    ensures w + m + y + " " + z == w + (m + (y + " " + z))
  {
  }

  /** A plain word, then an argument in apostrophes. */
  lemma SplitWordThenQuoted(w: string, x: string)
    requires PlainWord(w) && '\'' !in x
    ensures SplitNonPosix(w + " " + InApostrophes(x)) == Ok([w, InApostrophes(x)])
  {
    SplitWord(w, InApostrophes(x));
    SplitApostrophesAlone(x);
    assert [w] + [InApostrophes(x)] == [w, InApostrophes(x)];
  }

  /** Two arguments in apostrophes. */
  lemma SplitQuotedThenQuoted(y: string, x: string)
    requires '\'' !in y && '\'' !in x
    ensures SplitNonPosix(InApostrophes(y) + " " + InApostrophes(x)) == Ok([InApostrophes(y), InApostrophes(x)])
  {
    SplitApostrophes(y, InApostrophes(x));
    SplitApostrophesAlone(x);
    assert [InApostrophes(y)] + [InApostrophes(x)] == [InApostrophes(y), InApostrophes(x)];
  }

  /** A non-empty string of safe characters is a plain word. */
  lemma SafeIsPlain(s: string)
    requires s != "" && AllSafe(s)
    ensures PlainWord(s)
  {
    assert SafeChar(s[0]);
    forall i | 0 <= i < |s| ensures !IsShellSpace(s[i]) {
      assert SafeChar(s[i]);
    }
  }

  /** A quoted argument in apostrophes, then a space, then the rest. */
  lemma SplitApostrophes(x: string, rest: string)
    requires '\'' !in x
    ensures SplitNonPosix(InApostrophes(x) + " " + rest) == Prepend(InApostrophes(x), SplitNonPosix(rest))
  {
    assert InApostrophes(x) + " " + rest == ['\''] + x + ['\''] + (" " + rest);
    SplitQuoted('\'', x, " " + rest);
    SplitSpace(rest);
  }
}
