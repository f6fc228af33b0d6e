/** String helpers that stand for the parts of java.lang.String, StringUtils and
    StringTokenizer that the modelled code relies on. Case mapping is ASCII only. */
module Strings {

  /** StringUtils.isEmpty; a Java null String is modelled as the empty string. */
  predicate IsEmpty(s: string) {
    |s| == 0
  }

  /** String.startsWith. */
  predicate StartsWith(s: string, prefix: string) {
    prefix <= s
  }

  /** StringUtils.contains: `sub` occurs somewhere in `s`. */
  predicate Contains(s: string, sub: string) {
    exists i :: 0 <= i <= |s| - |sub| && OccursAt(s, sub, i)
  }

  predicate OccursAt(s: string, sub: string, i: int)
    requires 0 <= i <= |s| - |sub|
  {
    s[i..i + |sub|] == sub
  }

  function UpperChar(c: char): char {
    if 'a' <= c <= 'z' then (c as int - 32) as char else c
  }

  function LowerChar(c: char): char {
    if 'A' <= c <= 'Z' then (c as int + 32) as char else c
  }

  /** String.toUpperCase, restricted to ASCII letters. */
  function ToUpper(s: string): string {
    if s == [] then [] else [UpperChar(s[0])] + ToUpper(s[1..])
  }

  /** String.toLowerCase, restricted to ASCII letters. */
  function ToLower(s: string): string {
    if s == [] then [] else [LowerChar(s[0])] + ToLower(s[1..])
  }

  /** Upper-casing keeps the length, leaves no lower-case letter behind and is idempotent. */
  lemma {:induction false} ToUpperProperties(s: string)
    ensures |ToUpper(s)| == |s|
    ensures forall i :: 0 <= i < |s| ==> !('a' <= ToUpper(s)[i] <= 'z')
    ensures ToUpper(ToUpper(s)) == ToUpper(s)
  {
    if s != [] {
      ToUpperProperties(s[1..]);
    }
  }

  /** Lower-casing forgets an upper-casing: the two agree on every string ignoring case. */
  lemma {:induction false} LowerOfUpper(s: string)
    ensures ToLower(ToUpper(s)) == ToLower(s)
  {
    if s != [] {
      LowerOfUpper(s[1..]);
      assert ToUpper(s)[1..] == ToUpper(s[1..]);
    }
  }

  /** Lower-casing keeps the length and is idempotent. */
  lemma {:induction false} ToLowerProperties(s: string)
    ensures |ToLower(s)| == |s|
    ensures ToLower(ToLower(s)) == ToLower(s)
  {
    if s != [] {
      ToLowerProperties(s[1..]);
    }
  }

  /** The parts separated by `sep`, as String concatenation in a loop produces them. */
  function Join(parts: seq<string>, sep: string): string {
    if |parts| == 0 then ""
    else if |parts| == 1 then parts[0]
    else parts[0] + sep + Join(parts[1..], sep)
  }

  lemma {:induction false} JoinSnoc(parts: seq<string>, last: string, sep: string)
    requires |parts| > 0
    ensures Join(parts + [last], sep) == Join(parts, sep) + sep + last
  {
    if |parts| == 1 {
      assert parts + [last] == [parts[0], last];
    } else {
      assert (parts + [last])[1..] == parts[1..] + [last];
      JoinSnoc(parts[1..], last, sep);
    }
  }

  lemma {:induction false} JoinStartsWithFirst(parts: seq<string>, sep: string)
    requires |parts| > 0
    ensures parts[0] <= Join(parts, sep)
  {
  }

  /** The tokens StringTokenizer yields for `s` with `delim` as its only delimiter:
      the maximal non-empty runs of other characters, in order. `cur` is the run read so far. */
  function TokensFrom(s: string, delim: char, cur: string): seq<string> {
    if s == [] then (if cur == [] then [] else [cur])
    else if s[0] == delim then (if cur == [] then [] else [cur]) + TokensFrom(s[1..], delim, [])
    else TokensFrom(s[1..], delim, cur + [s[0]])
  }

  function Tokens(s: string, delim: char): seq<string> {
    TokensFrom(s, delim, [])
  }

  predicate IsToken(t: string, delim: char) {
    t != [] && delim !in t
  }

  /** Every token is non-empty and free of the delimiter. */
  lemma {:induction false} TokensFromAreTokens(s: string, delim: char, cur: string)
    requires delim !in cur
    ensures forall t :: t in TokensFrom(s, delim, cur) ==> IsToken(t, delim)
  {
    if s != [] {
      if s[0] == delim {
        TokensFromAreTokens(s[1..], delim, []);
      } else {
        TokensFromAreTokens(s[1..], delim, cur + [s[0]]);
      }
    }
  }

  lemma TokensAreTokens(s: string, delim: char)
    ensures forall t :: t in Tokens(s, delim) ==> IsToken(t, delim)
  {
    TokensFromAreTokens(s, delim, []);
  }

  /** Reading a delimiter-free text extends the current run. */
  lemma {:induction false} TokensFromRun(t: string, rest: string, delim: char, cur: string)
    requires delim !in t
    ensures TokensFrom(t + rest, delim, cur) == TokensFrom(rest, delim, cur + t)
  {
    if t != [] {
      assert (t + rest)[1..] == t[1..] + rest;
      assert cur + [t[0]] + t[1..] == cur + t;
      TokensFromRun(t[1..], rest, delim, cur + [t[0]]);
    } else {
      assert t + rest == rest;
      assert cur + t == cur;
    }
  }

  /** Joining tokens with the delimiter and tokenising again gives the tokens back. */
  lemma {:induction false} TokensOfJoin(ts: seq<string>, delim: char)
    requires forall t :: t in ts ==> IsToken(t, delim)
    ensures Tokens(Join(ts, [delim]), delim) == ts
  {
    if |ts| == 1 {
      assert IsToken(ts[0], delim) by { assert ts[0] in ts; }
      assert ts[0] + [] == ts[0];
      TokensFromRun(ts[0], [], delim, []);
      assert [] + ts[0] == ts[0];
    } else if |ts| > 1 {
      assert IsToken(ts[0], delim) by { assert ts[0] in ts; }
      var rest := Join(ts[1..], [delim]);
      assert Join(ts, [delim]) == ts[0] + ([delim] + rest);
      TokensFromRun(ts[0], [delim] + rest, delim, []);
      assert [] + ts[0] == ts[0];
      assert ([delim] + rest)[1..] == rest;
      TokensOfJoin(ts[1..], delim);
      assert ts == [ts[0]] + ts[1..];
    }
  }

  /** Integer.toString: decimal digits, with a minus sign for a negative number. */
  function DecimalString(n: int): string {
    if n < 0 then "-" + NatString(-n) else NatString(n)
  }

  function NatString(n: nat): string
    decreases n
  {
    if n < 10 then [DigitChar(n)] else NatString(n / 10) + [DigitChar(n % 10)]
  }

  function DigitChar(d: nat): char
    requires d < 10
  {
    ('0' as int + d) as char
  }
}
