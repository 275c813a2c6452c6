/**
  The two string helpers of params.cpp: `split_whitespace`, which tokenises one
  input line the way `std::istream_iterator<std::string>` does, and `b2s`, which
  renders a flag for the progress report.
 */
module Tokens {

  /** The characters `isspace` accepts in the C locale. */
  predicate IsSpace(ch: char) {
    ch == ' ' || ch == '\t' || ch == '\n' || ch == '\U{B}' || ch == '\U{C}' || ch == '\r'
  }

  /** A string made only of whitespace (the empty string included). */
  predicate IsBlank(s: string) {
    forall i :: 0 <= i < |s| ==> IsSpace(s[i])
  }

  /** What `operator>>` extracts into a string: a non-empty run of non-whitespace. */
  predicate IsToken(w: string) {
    |w| > 0 && forall i :: 0 <= i < |w| ==> !IsSpace(w[i])
  }

  /** Length of the token the extractor then reads: it stops at whitespace or at the end. */
  function WordLength(s: string): (n: nat)
    ensures n <= |s|
    ensures forall i :: 0 <= i < n ==> !IsSpace(s[i])
    ensures n < |s| ==> IsSpace(s[n])
  {
    if s == [] || IsSpace(s[0]) then 0
    else
      var n := 1 + WordLength(s[1..]);
      assert forall i :: 1 <= i < n ==> s[i] == s[1..][i - 1];
      n
  }

  /**
    `split_whitespace`: the tokens of `s` in order, whitespace skipped before each.
    Every token is non-empty and holds no whitespace, and there are none exactly
    when the line is blank.
   */
  function SplitWhitespace(s: string): (r: seq<string>)
    ensures forall k :: 0 <= k < |r| ==> IsToken(r[k])
    ensures r == [] <==> IsBlank(s)
    decreases |s|
  {
    if s == [] then []
    else if IsSpace(s[0]) then
      var r := SplitWhitespace(s[1..]);
      assert IsBlank(s[1..]) ==> IsBlank(s) by {
        assert forall i :: 1 <= i < |s| ==> s[i] == s[1..][i - 1];
      }
      r
    else
      var n := WordLength(s);
      [s[..n]] + SplitWhitespace(s[n..])
  }

  /** Reference definition: tokens written back with one space between neighbours. */
  function JoinWords(words: seq<string>): string {
    if words == [] then ""
    else if |words| == 1 then words[0]
    else words[0] + " " + JoinWords(words[1..])
  }

  lemma {:induction false} WordLengthOfPrefix(s: string, t: string)
    requires WordLength(s) < |s| || (t != [] && IsSpace(t[0]))
    ensures WordLength(s + t) == WordLength(s)
    decreases |s|
  {
    if s == [] {
      assert s + t == t;
    } else if !IsSpace(s[0]) {
      assert (s + t)[0] == s[0];
      assert (s + t)[1..] == s[1..] + t;
      WordLengthOfPrefix(s[1..], t);
    }
  }

  /** Leading whitespace never changes the tokens. */
  lemma {:induction false} SplitAfterBlank(pre: string, s: string)
    requires IsBlank(pre)
    ensures SplitWhitespace(pre + s) == SplitWhitespace(s)
    decreases |pre|
  {
    if pre == [] {
      assert pre + s == s;
    } else {
      assert (pre + s)[0] == pre[0];
      assert (pre + s)[1..] == pre[1..] + s;
      SplitAfterBlank(pre[1..], s);
    }
  }

  /** A single token splits to itself. */
  lemma SplitToken(w: string)
    requires IsToken(w)
    ensures SplitWhitespace(w) == [w]
  {
    assert WordLength(w) == |w|;
    assert w[..|w|] == w;
    assert w[|w|..] == [];
  }

  /** A whitespace character separates: the tokens on either side are kept apart and in order. */
  lemma {:induction false} SplitAtSpace(a: string, ch: char, b: string)
    requires IsSpace(ch)
    ensures SplitWhitespace(a + [ch] + b) == SplitWhitespace(a) + SplitWhitespace(b)
    decreases |a|
  {
    var s := a + [ch] + b;
    if a == [] {
      assert s == [ch] + b;
      assert s[1..] == b;
    } else if IsSpace(a[0]) {
      assert s[0] == a[0];
      assert s[1..] == a[1..] + [ch] + b;
      SplitAtSpace(a[1..], ch, b);
    } else {
      var n := WordLength(a);
      var word, more := a[..n], a[n..];
      assert a == word + more;
      SplitWord(a, word, more);
      assert s == word + (more + [ch] + b);
      SplitWord(s, word, more + [ch] + b);
      SplitAtSpace(more, ch, b);
    }
  }

  /** A token followed by whitespace or by the end of the line is split off first. */
  lemma SplitWord(s: string, word: string, rest: string)
    requires s == word + rest && IsToken(word)
    requires rest == [] || IsSpace(rest[0])
    ensures SplitWhitespace(s) == [word] + SplitWhitespace(rest)
  {
    assert WordLength(word) == |word|;
    if rest == [] {
      assert s == word;
    } else {
      WordLengthOfPrefix(word, rest);
    }
    assert s[0] == word[0];
    assert s[..|word|] == word;
    assert s[|word|..] == rest;
  }

  /** Round trip: joining tokens with spaces and splitting again gives the same tokens. */
  lemma {:induction false} SplitJoinWords(words: seq<string>)
    requires forall k :: 0 <= k < |words| ==> IsToken(words[k])
    ensures SplitWhitespace(JoinWords(words)) == words
  {
    if words == [] {
    } else if |words| == 1 {
      SplitToken(words[0]);
    } else {
      SplitAtSpace(words[0], ' ', JoinWords(words[1..]));
      assert words[0] + " " + JoinWords(words[1..]) == words[0] + [' '] + JoinWords(words[1..]);
      SplitToken(words[0]);
      SplitJoinWords(words[1..]);
    }
  }

  /** `b2s`: the text a flag is reported as. */
  function BoolToString(b: bool): (r: string)
    ensures r == "true" <==> b
    ensures r == "false" <==> !b
  {
    if b then "true" else "false"
  }
}
