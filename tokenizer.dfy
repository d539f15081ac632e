/**
 * The lexical tokenizer shared by both backends: lower-case the text, then
 * return every maximal run of `[a-zA-Z0-9_.]` (what `re.findall` returns).
 */
module Tokenizer {
  import opened Text

  /** A character of the token class `[a-zA-Z0-9_.]`. */
  predicate IsTokenChar(c: char) {
    ('a' <= c <= 'z') || ('A' <= c <= 'Z') || ('0' <= c <= '9') || c == '_' || c == '.'
  }

  /** A token as the tokenizer can produce it: non-empty, lower-case letters, digits, `_` or `.`. */
  predicate IsToken(t: string) {
    |t| > 0 && forall i :: 0 <= i < |t| ==> IsTokenChar(t[i]) && !IsUpperAscii(t[i])
  }

  /** Length of the run of token characters at the start of `s`. */
  function RunLength(s: string): (n: nat)
    ensures n <= |s|
    ensures forall i :: 0 <= i < n ==> IsTokenChar(s[i])
    ensures n == |s| || !IsTokenChar(s[n])
  {
    if |s| == 0 || !IsTokenChar(s[0]) then 0 else 1 + RunLength(s[1..])
  }

  /** `re.findall(r"[a-zA-Z0-9_\.]+", s)`: the maximal runs of token characters, left to right. */
  function Runs(s: string): (r: seq<string>)
    ensures forall k :: 0 <= k < |r| ==> |r[k]| > 0 && forall i :: 0 <= i < |r[k]| ==> IsTokenChar(r[k][i])
    ensures (forall i :: 0 <= i < |s| ==> !IsUpperAscii(s[i])) ==>
              forall k :: 0 <= k < |r| ==> IsToken(r[k])
    decreases |s|
  {
    if |s| == 0 then []
    else if !IsTokenChar(s[0]) then Runs(s[1..])
    else
      var n := RunLength(s);
      [s[..n]] + Runs(s[n..])
  }

  /** `_tokenize(text)`. */
  function Tokenize(text: string): (tokens: seq<string>)
    ensures forall k :: 0 <= k < |tokens| ==> IsToken(tokens[k])
  {
    Runs(Lower(text))
  }

  /** A string made of token characters is one run. */
  lemma {:induction false} RunOfTokenChars(t: string, rest: string)
    requires forall i :: 0 <= i < |t| ==> IsTokenChar(t[i])
    requires |rest| == 0 || !IsTokenChar(rest[0])
    ensures RunLength(t + rest) == |t|
  {
    if |t| > 0 {
      assert (t + rest)[1..] == t[1..] + rest;
      RunOfTokenChars(t[1..], rest);
    } else {
      assert t + rest == rest;
    }
  }

  /** Re-tokenising tokens joined by single spaces gives those tokens back. */
  lemma {:induction false} RunsOfJoinedTokens(ts: seq<string>)
    requires forall k :: 0 <= k < |ts| ==> IsToken(ts[k])
    ensures Runs(Join(" ", ts)) == ts
  {
    if |ts| == 0 {
    } else if |ts| == 1 {
      var t := ts[0];
      RunOfTokenChars(t, []);
      assert t + [] == t;
      assert t[..|t|] == t && t[|t|..] == [];
    } else {
      var t, rest := ts[0], Join(" ", ts[1..]);
      var s := t + " " + rest;
      assert Join(" ", ts) == s;
      RunOfTokenChars(t, " " + rest);
      assert t + (" " + rest) == s;
      assert s[..|t|] == t;
      assert s[|t|..] == " " + rest;
      assert (" " + rest)[1..] == rest;
      RunsOfJoinedTokens(ts[1..]);
      assert [t] + ts[1..] == ts;
    }
  }

  /** Every character of a space-joined list of tokens is already lower case. */
  lemma {:induction false} JoinedTokensAreLower(ts: seq<string>)
    requires forall k :: 0 <= k < |ts| ==> IsToken(ts[k])
    ensures forall i :: 0 <= i < |Join(" ", ts)| ==> !IsUpperAscii(Join(" ", ts)[i])
  {
    if |ts| > 1 {
      JoinedTokensAreLower(ts[1..]);
      var rest := Join(" ", ts[1..]);
      assert Join(" ", ts) == ts[0] + " " + rest;
      forall i | 0 <= i < |Join(" ", ts)| ensures !IsUpperAscii(Join(" ", ts)[i]) {
        if i > |ts[0]| { assert Join(" ", ts)[i] == rest[i - |ts[0]| - 1]; }
      }
    }
  }

  /** A string with no upper-case letter is its own lower-casing. */
  lemma LowerOfLower(s: string)
    requires forall i :: 0 <= i < |s| ==> !IsUpperAscii(s[i])
    ensures Lower(s) == s
  {
  }

  /** Tokens joined by spaces tokenize back to themselves. */
  lemma TokenizeJoined(ts: seq<string>)
    requires forall k :: 0 <= k < |ts| ==> IsToken(ts[k])
    ensures Tokenize(Join(" ", ts)) == ts
  {
    JoinedTokensAreLower(ts);
    LowerOfLower(Join(" ", ts));
    RunsOfJoinedTokens(ts);
  }

  /** Round trip: re-tokenising the space-joined tokens of any text returns the same tokens. */
  lemma TokenizeRoundTrip(text: string)
    ensures Tokenize(Join(" ", Tokenize(text))) == Tokenize(text)
  {
    TokenizeJoined(Tokenize(text));
  }

  /** A text without any token character (such as `"???"`) has no tokens. */
  lemma {:induction false} NoTokenChars(s: string)
    requires forall i :: 0 <= i < |s| ==> !IsTokenChar(s[i])
    ensures Runs(s) == []
  {
    if |s| > 0 { NoTokenChars(s[1..]); }
  }
}
