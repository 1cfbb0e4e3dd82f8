/** The few Python string operations the application relies on. */
module Strings {

  /** Python's `str.isspace()`: exactly the characters that `str.strip()` removes
      when it is called without arguments. */
  predicate IsWhitespace(c: char) {
    || ('\t' <= c <= '\r')              // tab, line feed, vertical tab, form feed, carriage return
    || ('\U{1C}' <= c <= '\U{1F}')      // the four information separators
    || c == ' '
    || c == '\U{85}'                    // next line
    || c == '\U{A0}'                    // no-break space
    || c == '\U{1680}'
    || ('\U{2000}' <= c <= '\U{200A}')
    || c == '\U{2028}' || c == '\U{2029}'
    || c == '\U{202F}' || c == '\U{205F}' || c == '\U{3000}'
  }

  predicate AllWhitespace(s: string) {
    forall c :: c in s ==> IsWhitespace(c)
  }

  /** `s` with its leading whitespace removed. */
  function TrimStart(s: string): (r: string)
    ensures |r| <= |s| && r == s[|s| - |r|..]
    ensures r != [] ==> !IsWhitespace(r[0])
  {
    if s != [] && IsWhitespace(s[0]) then TrimStart(s[1..]) else s
  }

  /** `s` with its trailing whitespace removed. */
  function TrimEnd(s: string): (r: string)
    ensures |r| <= |s| && r == s[..|r|]
    ensures r != [] ==> !IsWhitespace(r[|r| - 1])
  {
    if s != [] && IsWhitespace(s[|s| - 1]) then TrimEnd(s[..|s| - 1]) else s
  }

  /** What TrimStart removes is whitespace. */
  lemma {:induction false} TrimStartDropsWhitespace(s: string)
    ensures AllWhitespace(s[..|s| - |TrimStart(s)|])
    decreases |s|
  {
    if s != [] && IsWhitespace(s[0]) {
      TrimStartDropsWhitespace(s[1..]);
      var k := |s| - |TrimStart(s)|;
      assert s[..k] == [s[0]] + s[1..][..k - 1];
    }
  }

  /** What TrimEnd removes is whitespace. */
  lemma {:induction false} TrimEndDropsWhitespace(s: string)
    ensures AllWhitespace(s[|TrimEnd(s)|..])
    decreases |s|
  {
    if s != [] && IsWhitespace(s[|s| - 1]) {
      TrimEndDropsWhitespace(s[..|s| - 1]);
      var r := TrimEnd(s);
      assert s[|r|..] == s[..|s| - 1][|r|..] + [s[|s| - 1]];
    }
  }

  /** Python's `s.strip()`. It neither starts nor ends with whitespace;
      TrimSpec says which part of `s` it is. */
  function Trim(s: string): (r: string)
    ensures |r| <= |s|
    ensures r != [] ==> !IsWhitespace(r[0]) && !IsWhitespace(r[|r| - 1])
  {
    TrimFirst(s);
    TrimEnd(TrimStart(s))
  }

  /** The stripped string is what is left of `s` after removing a whitespace
      prefix and a whitespace suffix. */
  lemma TrimSpec(s: string)
    ensures var k := |s| - |TrimStart(s)|; var r := Trim(s);
      && k + |r| <= |s|
      && r == s[k..k + |r|]
      && AllWhitespace(s[..k])
      && AllWhitespace(s[k + |r|..])
  {
    var t := TrimStart(s);
    assert Trim(s) == TrimEnd(t);
    TrimInfix(s);
    TrimSuffix(s);
    TrimStartDropsWhitespace(s);
  }

  /** Where the stripped part of `s` sits: helpers for the contract of Trim. */
  lemma TrimInfix(s: string)
    ensures var k := |s| - |TrimStart(s)|; var r := TrimEnd(TrimStart(s));
      k + |r| <= |s| && r == s[k..k + |r|]
  {
    var t := TrimStart(s);
    var r := TrimEnd(t);
    PrefixOfSuffix(s, |s| - |t|, |r|);
  }

  lemma PrefixOfSuffix(s: string, k: nat, j: nat)
    requires k + j <= |s|
    ensures s[k..][..j] == s[k..k + j]
  {
  }

  lemma TrimSuffix(s: string)
    ensures var k := |s| - |TrimStart(s)|; var r := TrimEnd(TrimStart(s));
      k + |r| <= |s| && AllWhitespace(s[k + |r|..])
  {
    var t := TrimStart(s);
    var k := |s| - |t|;
    var r := TrimEnd(t);
    TrimEndDropsWhitespace(t);
    SuffixOfSuffix(s, k, |r|);
  }

  lemma SuffixOfSuffix(s: string, k: nat, j: nat)
    requires k + j <= |s|
    ensures s[k..][j..] == s[k + j..]
  {
  }

  lemma TrimFirst(s: string)
    ensures var r := TrimEnd(TrimStart(s)); r != [] ==> !IsWhitespace(r[0])
  {
    var t := TrimStart(s);
    var r := TrimEnd(t);
    assert r == t[..|r|];
    assert r != [] ==> r[0] == t[0];
  }

  lemma {:induction false} TrimStartOfWhitespace(s: string)
    requires AllWhitespace(s)
    ensures TrimStart(s) == []
    decreases |s|
  {
    if s != [] {
      TrimStartOfWhitespace(s[1..]);
    }
  }

  /** Stripping gives the empty string exactly when every character is whitespace. */
  lemma TrimEmptyIff(s: string)
    ensures Trim(s) == [] <==> AllWhitespace(s)
  {
    if AllWhitespace(s) {
      TrimStartOfWhitespace(s);
    } else {
      TrimStartKeepsNonWhitespace(s);
      TrimEndKeepsNonWhitespace(TrimStart(s));
    }
  }

  lemma {:induction false} TrimEndKeepsNonWhitespace(s: string)
    requires s != [] && !IsWhitespace(s[0])
    ensures TrimEnd(s) != []
    decreases |s|
  {
    if IsWhitespace(s[|s| - 1]) {
      TrimEndKeepsNonWhitespace(s[..|s| - 1]);
    }
  }

  lemma {:induction false} TrimStartKeepsNonWhitespace(s: string)
    requires !AllWhitespace(s)
    ensures TrimStart(s) != []
    decreases |s|
  {
    if IsWhitespace(s[0]) {
      assert !AllWhitespace(s[1..]) by {
        var i :| 0 <= i < |s| && !IsWhitespace(s[i]);
        assert s[1..][i - 1] == s[i];
      }
      TrimStartKeepsNonWhitespace(s[1..]);
    }
  }

  lemma {:induction false} TrimStartAppend(s: string, c: char)
    requires !AllWhitespace(s)
    ensures TrimStart(s + [c]) == TrimStart(s) + [c]
    decreases |s|
  {
    if IsWhitespace(s[0]) {
      assert (s + [c])[1..] == s[1..] + [c];
      assert !AllWhitespace(s[1..]) by {
        var i :| 0 <= i < |s| && !IsWhitespace(s[i]);
        assert s[1..][i - 1] == s[i];
      }
      TrimStartAppend(s[1..], c);
    }
  }

  lemma AllWhitespaceAppend(s: string, c: char)
    requires IsWhitespace(c)
    ensures AllWhitespace(s + [c]) <==> AllWhitespace(s)
  {
    if AllWhitespace(s) {
      forall i | 0 <= i < |s| + 1 ensures IsWhitespace((s + [c])[i]) {
        if i < |s| { assert (s + [c])[i] == s[i]; }
      }
    }
    if AllWhitespace(s + [c]) {
      forall i | 0 <= i < |s| ensures IsWhitespace(s[i]) {
        assert (s + [c])[i] == s[i];
      }
    }
  }

  /** Appending one whitespace character never changes the stripped string:
      this is why the newline a Tk text widget adds to its contents is harmless. */
  lemma TrimAppendWhitespace(s: string, c: char)
    requires IsWhitespace(c)
    ensures Trim(s + [c]) == Trim(s)
  {
    AllWhitespaceAppend(s, c);
    if AllWhitespace(s) {
      TrimEmptyIff(s);
      TrimEmptyIff(s + [c]);
    } else {
      TrimStartAppend(s, c);
      var t := TrimStart(s);
      TrimStartKeepsNonWhitespace(s);
      assert (t + [c])[..|t + [c]| - 1] == t;
    }
  }

  /** Stripping is idempotent. */
  lemma TrimIdempotent(s: string)
    ensures Trim(Trim(s)) == Trim(s)
  {
  }

  /** Python's `str.lower()` on ASCII letters; every other character is kept. */
  function Lower(s: string): (r: string)
    ensures |r| == |s|
    ensures forall i :: 0 <= i < |r| ==> !('A' <= r[i] <= 'Z')
    ensures forall i :: 0 <= i < |s| && !('A' <= s[i] <= 'Z') ==> r[i] == s[i]
    ensures forall i :: 0 <= i < |s| && 'A' <= s[i] <= 'Z' ==> 'a' <= r[i] <= 'z' && r[i] as int - s[i] as int == 32
  {
    seq(|s|, i requires 0 <= i < |s| => if 'A' <= s[i] <= 'Z' then (s[i] as int + 32) as char else s[i])
  }

  /** Python's `s.endswith(suffix)`. */
  predicate EndsWith(s: string, suffix: string) {
    |suffix| <= |s| && s[|s| - |suffix|..] == suffix
  }

  predicate StartsWith(s: string, prefix: string) {
    |prefix| <= |s| && s[..|prefix|] == prefix
  }

  /** The index of the first `c` in `s`, or `|s|` when `s` has none. */
  function IndexOf(s: string, c: char): (k: nat)
    ensures k <= |s|
    ensures k < |s| ==> s[k] == c
    ensures forall i :: 0 <= i < k ==> s[i] != c
  {
    if s == [] || s[0] == c then 0 else 1 + IndexOf(s[1..], c)
  }

  /** A string that neither starts nor ends with whitespace is its own strip. */
  lemma TrimOfUnpadded(s: string)
    requires s != [] ==> !IsWhitespace(s[0]) && !IsWhitespace(s[|s| - 1])
    ensures Trim(s) == s
  {
  }
}
