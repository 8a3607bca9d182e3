/** Shared vocabulary: optional values, results, the character classes the
    source's regular expressions use, and small string helpers. */
module Common {

  datatype Option<+T> = None | Some(value: T)

  /** The outcome of an operation that in the source either returns or raises. */
  datatype Result<+T, +E> = Ok(value: T) | Err(error: E)

  /** Python's `\w`, restricted to ASCII (see README, "Left out"). */
  predicate IsWordChar(c: char) {
    ('a' <= c <= 'z') || ('A' <= c <= 'Z') || ('0' <= c <= '9') || c == '_'
  }

  /** The class `[\w.-]` used for path segments and names. */
  predicate IsSegChar(c: char) {
    IsWordChar(c) || c == '.' || c == '-'
  }

  predicate IsDigit(c: char) {
    '0' <= c <= '9'
  }

  /** The index of the first occurrence of `c` in `s`, if any. */
  function IndexOf(s: string, c: char): (r: Option<nat>)
    ensures r.None? <==> c !in s
    ensures r.Some? ==> r.value < |s| && s[r.value] == c && c !in s[..r.value]
  {
    if |s| == 0 then None
    else if s[0] == c then Some(0)
    else match IndexOf(s[1..], c)
      case None => None
      case Some(i) =>
        assert s[..i + 1] == [s[0]] + s[1..][..i];
        Some(i + 1)
  }

  /** The number of occurrences of `c` in `s`. */
  function CountChar(s: string, c: char): nat {
    if |s| == 0 then 0 else (if s[0] == c then 1 else 0) + CountChar(s[1..], c)
  }

  /** The occurrences of `c` before, at and after index `i`. */
  lemma {:induction false} CountAt(s: string, i: nat, c: char)
    requires i < |s|
    ensures CountChar(s, c) == CountChar(s[..i], c) + (if s[i] == c then 1 else 0) + CountChar(s[i + 1..], c)
  {
    if i > 0 {
      CountAt(s[1..], i - 1, c);
      assert s[1..][..i - 1] == s[..i][1..];
      assert s[1..][i..] == s[i + 1..];
    } else {
      assert s[..0] == [];
    }
  }

  /** Python's `str(n)` for an integer. */
  function IntToString(n: int): (r: string)
    ensures |r| > 0
  {
    if n < 0 then "-" + NatToString(-n) else NatToString(n)
  }

  function NatToString(n: nat): (r: string)
    ensures |r| > 0
    ensures forall i :: 0 <= i < |r| ==> IsDigit(r[i])
    decreases n
  {
    var d := [(('0' as int) + n % 10) as char];
    if n < 10 then d else NatToString(n / 10) + d
  }

  /** Python's `bool(s)` for a string: non-empty. */
  predicate Truthy(s: Option<string>) {
    s.Some? && s.value != ""
  }
}
