/**
 * The GLib string helpers the core relies on, stated over `seq<char>`:
 * g_strsplit, g_strjoinv, g_strchomp, g_strchug and g_strstrip, and
 * g_str_has_prefix.
 */
module Strings {

  /**
   * g_ascii_isspace: space, tab, newline, form feed and carriage return.
   * GLib's table leaves the vertical tab out.
   */
  predicate IsAsciiSpace(c: char) {
    c == ' ' || c == '\t' || c == '\n' || c == '\U{000C}' || c == '\r'
  }

  predicate HasPrefix(s: string, prefix: string) {
    |prefix| <= |s| && s[..|prefix|] == prefix
  }

  predicate HasSuffix(s: string, suffix: string) {
    |suffix| <= |s| && s[|s| - |suffix|..] == suffix
  }

  /**
   * The tokens of `s` between occurrences of `sep`, keeping empty tokens;
   * there is always at least one.
   */
  function SplitAll(s: string, sep: char): (r: seq<string>)
    ensures |r| >= 1
    decreases |s|
  {
    if s == [] then [""]
    else
      var rest := SplitAll(s[1..], sep);
      if s[0] == sep then [""] + rest
      else [[s[0]] + rest[0]] + rest[1..]
  }

  /** g_strsplit (s, sep, -1): the empty string yields no token at all. */
  function Split(s: string, sep: char): seq<string> {
    if s == "" then [] else SplitAll(s, sep)
  }

  /** g_strjoinv (sep, words). */
  function Join(sep: string, words: seq<string>): string
    decreases |words|
  {
    if |words| == 0 then ""
    else if |words| == 1 then words[0]
    else words[0] + sep + Join(sep, words[1..])
  }

  /** The index of the first `c` in `s`. */
  function IndexOf(s: string, c: char): (i: nat)
    requires c in s
    ensures i < |s| && s[i] == c && c !in s[..i]
    ensures forall k | 0 <= k < i :: s[k] != c
  {
    if s[0] == c then 0 else 1 + IndexOf(s[1..], c)
  }

  /**
   * g_strsplit (s, sep, 2): the text before the first `sep` and, when there
   * is one, the text after it.
   */
  function SplitFirst(s: string, sep: char): (r: seq<string>)
    ensures s == "" <==> r == []
    ensures sep !in s && s != "" ==> r == [s]
    ensures sep in s ==> |r| == 2 && r[0] + [sep] + r[1] == s && sep !in r[0]
  {
    if s == "" then []
    else if sep in s then
      var i := IndexOf(s, sep);
      assert s == s[..i] + [sep] + s[i + 1..];
      [s[..i], s[i + 1..]]
    else [s]
  }

  /** Where `s` holds its first `sep`, SplitFirst cuts it there. */
  lemma SplitFirstAt(s: string, sep: char, i: nat)
    requires i < |s| && s[i] == sep && forall k | 0 <= k < i :: s[k] != sep
    ensures SplitFirst(s, sep) == [s[..i], s[i + 1..]]
  {
    assert sep in s;
    var j := IndexOf(s, sep);
  }

  /** g_strchomp: drops trailing ASCII whitespace. */
  function Chomp(s: string): (r: string)
    decreases |s|
  {
    if s != [] && IsAsciiSpace(s[|s| - 1]) then Chomp(s[..|s| - 1]) else s
  }

  /** g_strchug: drops leading ASCII whitespace. */
  function Chug(s: string): (r: string)
    decreases |s|
  {
    if s != [] && IsAsciiSpace(s[0]) then Chug(s[1..]) else s
  }

  /**
   * g_strstrip, which GLib defines as g_strchomp (g_strchug (s)); taking
   * the trailing whitespace off first leaves the same string.
   */
  function Strip(s: string): string {
    Chug(Chomp(s))
  }

  lemma {:induction false} ChompIsPrefix(s: string)
    ensures |Chomp(s)| <= |s| && Chomp(s) == s[..|Chomp(s)|]
    ensures Chomp(s) == [] || !IsAsciiSpace(Chomp(s)[|Chomp(s)| - 1])
    ensures forall i :: |Chomp(s)| <= i < |s| ==> IsAsciiSpace(s[i])
    decreases |s|
  {
    if s != [] && IsAsciiSpace(s[|s| - 1]) {
      ChompIsPrefix(s[..|s| - 1]);
    }
  }

  lemma {:induction false} ChugIsSuffix(s: string)
    ensures |Chug(s)| <= |s| && Chug(s) == s[|s| - |Chug(s)|..]
    ensures Chug(s) == [] || !IsAsciiSpace(Chug(s)[0])
    ensures forall i :: 0 <= i < |s| - |Chug(s)| ==> IsAsciiSpace(s[i])
    decreases |s|
  {
    if s != [] && IsAsciiSpace(s[0]) {
      ChugIsSuffix(s[1..]);
    }
  }

  /** A stripped string neither starts nor ends with whitespace, and stripping is idempotent. */
  lemma StripTrims(s: string)
    ensures Strip(s) == [] || (!IsAsciiSpace(Strip(s)[0]) && !IsAsciiSpace(Strip(s)[|Strip(s)| - 1]))
    ensures Strip(Strip(s)) == Strip(s)
  {
    var c := Chomp(s);
    ChompIsPrefix(s);
    ChugIsSuffix(c);
    var r := Chug(c);
    if r != [] {
      assert r[|r| - 1] == c[|c| - 1];
      ChompUnchanged(r);
      ChugUnchanged(r);
    }
  }

  lemma ChompUnchanged(s: string)
    requires s == [] || !IsAsciiSpace(s[|s| - 1])
    ensures Chomp(s) == s
  {
  }

  lemma ChugUnchanged(s: string)
    requires s == [] || !IsAsciiSpace(s[0])
    ensures Chug(s) == s
  {
  }

  /** Every token of a split is free of the separator. */
  lemma {:induction false} SplitAllTokens(s: string, sep: char)
    ensures forall t | t in SplitAll(s, sep) :: sep !in t
    decreases |s|
  {
    if s != [] {
      SplitAllTokens(s[1..], sep);
    }
  }

  lemma JoinCons(sep: string, w: string, words: seq<string>)
    requires |words| >= 1
    ensures Join(sep, [w] + words) == w + sep + Join(sep, words)
  {
    assert ([w] + words)[1..] == words;
  }

  /** g_strjoinv (sep, g_strsplit (s, sep, -1)) gives `s` back. */
  lemma {:induction false} JoinSplitAll(s: string, sep: char)
    ensures Join([sep], SplitAll(s, sep)) == s
    decreases |s|
  {
    if s != [] {
      JoinSplitAll(s[1..], sep);
      JoinSplitAllStep(s, sep);
    }
  }

  /** One step of JoinSplitAll: putting back the first character. */
  lemma JoinSplitAllStep(s: string, sep: char)
    requires s != []
    requires Join([sep], SplitAll(s[1..], sep)) == s[1..]
    ensures Join([sep], SplitAll(s, sep)) == s
  {
    var rest := SplitAll(s[1..], sep);
    if s[0] == sep {
      JoinSeparatorFirst(s, sep, rest);
    } else if |rest| == 1 {
      JoinOneWord(s, sep, rest);
    } else {
      JoinWordFirst(s, sep, rest);
    }
  }

  lemma JoinSeparatorFirst(s: string, sep: char, rest: seq<string>)
    requires s != [] && s[0] == sep && |rest| >= 1 && Join([sep], rest) == s[1..]
    ensures Join([sep], [""] + rest) == s
  {
    JoinCons([sep], "", rest);
    assert s == [s[0]] + s[1..];
  }

  lemma JoinOneWord(s: string, sep: char, rest: seq<string>)
    requires s != [] && |rest| == 1 && Join([sep], rest) == s[1..]
    ensures Join([sep], [[s[0]] + rest[0]] + rest[1..]) == s
  {
    assert [[s[0]] + rest[0]] + rest[1..] == [[s[0]] + rest[0]];
    assert s == [s[0]] + s[1..];
  }

  lemma JoinWordFirst(s: string, sep: char, rest: seq<string>)
    requires s != [] && |rest| >= 2 && Join([sep], rest) == s[1..]
    ensures Join([sep], [[s[0]] + rest[0]] + rest[1..]) == s
  {
    var j := Join([sep], rest[1..]);
    JoinCons([sep], [s[0]] + rest[0], rest[1..]);
    assert rest == [rest[0]] + rest[1..];
    JoinCons([sep], rest[0], rest[1..]);
    assert s[1..] == rest[0] + [sep] + j;
    assert s == [s[0]] + s[1..];
    assert [s[0]] + rest[0] + [sep] + j == [s[0]] + (rest[0] + [sep] + j);
  }

  lemma JoinSplit(s: string, sep: char)
    ensures Join([sep], Split(s, sep)) == s
    ensures forall t | t in Split(s, sep) :: sep !in t
  {
    if s != "" {
      JoinSplitAll(s, sep);
      SplitAllTokens(s, sep);
    }
  }

  /** Splitting a join of separator-free tokens gives the tokens back. */
  lemma {:induction false} SplitAllJoin(words: seq<string>, sep: char)
    requires |words| >= 1
    requires forall w | w in words :: sep !in w
    ensures SplitAll(Join([sep], words), sep) == words
    decreases |words|, |words[0]|
  {
    if |words| == 1 {
      SplitAllNoSep(words[0], sep);
    } else if words[0] == "" {
      assert forall w | w in words[1..] :: w in words;
      SplitAllJoin(words[1..], sep);
      SplitAllJoinEmptyFirst(words, sep);
    } else {
      var w0 := words[0];
      assert w0 in words;
      assert sep !in w0[1..] by {
        assert forall k | 0 <= k < |w0[1..]| :: w0[1..][k] == w0[k + 1];
      }
      var shorter := [w0[1..]] + words[1..];
      assert forall w | w in shorter :: sep !in w by {
        assert forall w | w in words[1..] :: w in words;
      }
      SplitAllJoin(shorter, sep);
      SplitAllJoinWordFirst(words, sep);
    }
  }

  /** The SplitAllJoin step for a first token that is empty: the join starts with the separator. */
  lemma SplitAllJoinEmptyFirst(words: seq<string>, sep: char)
    requires |words| >= 2 && words[0] == ""
    requires SplitAll(Join([sep], words[1..]), sep) == words[1..]
    ensures SplitAll(Join([sep], words), sep) == words
  {
    JoinCons([sep], "", words[1..]);
    var j := Join([sep], words);
    assert j == [sep] + Join([sep], words[1..]);
    assert j[1..] == Join([sep], words[1..]);
    assert words == [""] + words[1..];
  }

  /** The SplitAllJoin step for a non-empty first token: the join starts with its first character. */
  lemma SplitAllJoinWordFirst(words: seq<string>, sep: char)
    requires |words| >= 2 && words[0] != "" && sep !in words[0]
    requires SplitAll(Join([sep], [words[0][1..]] + words[1..]), sep) == [words[0][1..]] + words[1..]
    ensures SplitAll(Join([sep], words), sep) == words
  {
    var shorter := [words[0][1..]] + words[1..];
    JoinHeadChar(words, sep);
    SplitAllCons(words[0][0], Join([sep], shorter), sep, shorter);
    RegroupHead(words);
  }

  /** A join whose first token is not empty starts with that token's first character. */
  lemma JoinHeadChar(words: seq<string>, sep: char)
    requires |words| >= 2 && words[0] != ""
    ensures Join([sep], words) == [words[0][0]] + Join([sep], [words[0][1..]] + words[1..])
  {
    var w0 := words[0];
    assert words == [w0] + words[1..];
    JoinCons([sep], w0, words[1..]);
    JoinCons([sep], w0[1..], words[1..]);
    HeadOfAppend(w0, [sep], Join([sep], words[1..]));
  }

  /** A non-empty sequence followed by two more starts with its own first element. */
  lemma HeadOfAppend<T>(w: seq<T>, m: seq<T>, t: seq<T>)
    requires |w| >= 1
    ensures w + m + t == [w[0]] + (w[1..] + m + t)
  {
    assert w == [w[0]] + w[1..];
  }

  /** Splitting a string that starts with a non-separator extends the first token of the rest. */
  lemma SplitAllCons(c: char, t: string, sep: char, ws: seq<string>)
    requires c != sep && SplitAll(t, sep) == ws
    ensures SplitAll([c] + t, sep) == [[c] + ws[0]] + ws[1..]
  {
    assert ([c] + t)[1..] == t;
  }

  /** A list of tokens is its first token's head, its first token's tail, and the other tokens. */
  lemma RegroupHead(words: seq<string>)
    requires |words| >= 1 && words[0] != ""
    ensures [[words[0][0]] + ([words[0][1..]] + words[1..])[0]] + ([words[0][1..]] + words[1..])[1..] == words
  {
    var shorter := [words[0][1..]] + words[1..];
    assert shorter[0] == words[0][1..] && shorter[1..] == words[1..];
    assert [words[0][0]] + words[0][1..] == words[0];
  }

  lemma {:induction false} SplitAllNoSep(s: string, sep: char)
    requires sep !in s
    ensures SplitAll(s, sep) == [s]
    decreases |s|
  {
    if s != [] {
      SplitAllNoSep(s[1..], sep);
      assert [s[0]] + s[1..] == s;
    }
  }

  /** A trailing newline makes no difference to g_strchomp. */
  lemma ChompNewline(s: string)
    ensures Chomp(s + "\n") == Chomp(s)
  {
    assert (s + "\n")[..|s|] == s;
  }

  /** Stripping only removes characters, so it brings in no character that was not there. */
  lemma StripWithin(s: string, c: char)
    requires c !in s
    ensures c !in Strip(s)
  {
    ChompIsPrefix(s);
    var t := Chomp(s);
    ChugIsSuffix(t);
    assert forall k | 0 <= k < |t| :: t[k] == s[k];
    assert forall k | 0 <= k < |Chug(t)| :: Chug(t)[k] == t[|t| - |Chug(t)| + k];
  }
}
