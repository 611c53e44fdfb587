/** The string operations the runner relies on from Python: `" ".join`,
    `str.replace(" ", "\\ ")`, `str.capitalize` and `str` of a non-negative
    integer, each with the inverse or reference that pins down its meaning. */
module Text {

  // ---------------------------------------------------------------------
  // Joining command tokens with single spaces
  // ---------------------------------------------------------------------

  /** `" ".join(tokens)`. */
  function Join(tokens: seq<string>): string
  {
    if |tokens| == 0 then ""
    else if |tokens| == 1 then tokens[0]
    else tokens[0] + " " + Join(tokens[1..])
  }

  /** `s.split(" ")`: the pieces between single spaces, empty pieces kept. */
  function SplitOnSpace(s: string): (r: seq<string>)
    ensures |r| >= 1
    ensures forall i :: 0 <= i < |r| ==> ' ' !in r[i]
  {
    if s == [] then [""]
    else
      var rest := SplitOnSpace(s[1..]);
      if s[0] == ' ' then [""] + rest
      else [[s[0]] + rest[0]] + rest[1..]
  }

  lemma {:induction false} SplitPrefix(t: string, u: string)
    requires ' ' !in t
    ensures SplitOnSpace(t + u) == [t + SplitOnSpace(u)[0]] + SplitOnSpace(u)[1..]
  {
    if t == [] {
      var r := SplitOnSpace(u);
      assert t + u == u && t + r[0] == r[0];
      assert r == [r[0]] + r[1..];
    } else {
      assert (t + u)[0] == t[0];
      assert (t + u)[1..] == t[1..] + u;
      SplitPrefix(t[1..], u);
      assert [t[0]] + (t[1..] + SplitOnSpace(u)[0]) == t + SplitOnSpace(u)[0];
    }
  }

  /** Joining tokens that hold no space and splitting the result again
      gives back exactly the tokens: the join loses nothing. */
  lemma {:induction false} SplitJoin(tokens: seq<string>)
    requires |tokens| >= 1
    requires forall i :: 0 <= i < |tokens| ==> ' ' !in tokens[i]
    ensures SplitOnSpace(Join(tokens)) == tokens
  {
    if |tokens| == 1 {
      SplitPrefix(tokens[0], "");
      assert tokens[0] + "" == tokens[0];
    } else {
      var rest := tokens[1..];
      SplitJoin(rest);
      var tail := " " + Join(rest);
      assert SplitOnSpace(tail) == [""] + rest by {
        assert tail[0] == ' ' && tail[1..] == Join(rest);
      }
      assert Join(tokens) == tokens[0] + tail;
      SplitPrefix(tokens[0], tail);
      assert tokens[0] + "" == tokens[0];
      assert [tokens[0]] + rest == tokens;
    }
  }

  // ---------------------------------------------------------------------
  // Escaping spaces with a backslash
  // ---------------------------------------------------------------------

  /** `s.replace(" ", "\\ ")`: every space gets a backslash in front. */
  function EscapeSpaces(s: string): (r: string)
    ensures forall i :: 0 <= i < |r| && r[i] == ' ' ==> 0 < i && r[i - 1] == '\\'
  {
    if s == [] then ""
    else (if s[0] == ' ' then "\\ " else [s[0]]) + EscapeSpaces(s[1..])
  }

  /** A string without spaces needs no escaping. */
  lemma {:induction false} EscapeWithoutSpaces(s: string)
    requires ' ' !in s
    ensures EscapeSpaces(s) == s
  {
    if s != [] {
      assert ' ' !in s[1..] by {
        assert forall c :: c in s[1..] ==> c in s;
      }
      EscapeWithoutSpaces(s[1..]);
      assert s == [s[0]] + s[1..];
    }
  }

  /** Reads a backslash followed by a space as one space. */
  function UnescapeSpaces(s: string): string
  {
    if s == [] then ""
    else if |s| >= 2 && s[0] == '\\' && s[1] == ' ' then " " + UnescapeSpaces(s[2..])
    else [s[0]] + UnescapeSpaces(s[1..])
  }

  /** The escaping is undone by reading `\ ` back as a space, so distinct
      names stay distinct once escaped. */
  lemma {:induction false} UnescapeEscape(s: string)
    ensures UnescapeSpaces(EscapeSpaces(s)) == s
  {
    if s != [] {
      var rest := EscapeSpaces(s[1..]);
      UnescapeEscape(s[1..]);
      if s[0] == ' ' {
        assert EscapeSpaces(s) == "\\ " + rest;
        assert ("\\ " + rest)[2..] == rest;
      } else {
        assert EscapeSpaces(s) == [s[0]] + rest;
        assert ([s[0]] + rest)[1..] == rest;
        assert rest != [] ==> rest[0] != ' ';
      }
      assert s == [s[0]] + s[1..];
    }
  }

  // ---------------------------------------------------------------------
  // How the shell reads a command line: spaces and backslashes
  // ---------------------------------------------------------------------

  /** The word read so far, as a list of at most one word: an empty word is
      dropped. */
  function Word(w: string): seq<string> {
    if w == [] then [] else [w]
  }

  /** The words of `s`, `cur` being the part of a word already read. An
      unescaped space ends the word; a backslash makes the character after
      it part of the word, whatever it is; a backslash at the very end is
      kept as it is. */
  function Words(s: string, cur: string): (r: seq<string>)
    ensures forall i :: 0 <= i < |r| ==> r[i] != []
    decreases |s|
  {
    if s == [] then Word(cur)
    else if s[0] == '\\' && |s| >= 2 then Words(s[2..], cur + [s[1]])
    else if s[0] == ' ' then Word(cur) + Words(s[1..], "")
    else Words(s[1..], cur + [s[0]])
  }

  /** The arguments a POSIX shell hands on for the command line `s`. */
  function ShellWords(s: string): seq<string> {
    Words(s, "")
  }

  /** The pieces that are not empty, in order. */
  function NonEmpty(pieces: seq<string>): (r: seq<string>)
    ensures forall i :: 0 <= i < |r| ==> r[i] != []
  {
    if pieces == [] then [] else Word(pieces[0]) + NonEmpty(pieces[1..])
  }

  lemma {:induction false} NonEmptyAppend(a: seq<string>, b: seq<string>)
    ensures NonEmpty(a + b) == NonEmpty(a) + NonEmpty(b)
  {
    if a != [] {
      assert (a + b)[0] == a[0] && (a + b)[1..] == a[1..] + b;
      NonEmptyAppend(a[1..], b);
    } else {
      assert a + b == b;
    }
  }

  /** Nothing is dropped from pieces that are all non-empty. */
  lemma {:induction false} NonEmptyKeepsAll(pieces: seq<string>)
    requires forall i :: 0 <= i < |pieces| ==> pieces[i] != []
    ensures NonEmpty(pieces) == pieces
  {
    if pieces != [] {
      NonEmptyKeepsAll(pieces[1..]);
      assert [pieces[0]] + pieces[1..] == pieces;
    }
  }

  /** A backslash before every space and every backslash, so that the shell
      reads the text back as one word. */
  function ShellEscape(s: string): string {
    if s == [] then "" else EscapeChar(s[0]) + ShellEscape(s[1..])
  }

  function EscapeChar(c: char): string {
    if c == ' ' || c == '\\' then ['\\', c] else [c]
  }

  /** The shell reads one escaped character as that character. */
  lemma WordsEscapedChar(c: char, tail: string, cur: string)
    ensures Words(EscapeChar(c) + tail, cur) == Words(tail, cur + [c])
  {
    var s := EscapeChar(c) + tail;
    if c == ' ' || c == '\\' {
      assert s[0] == '\\' && s[1] == c && s[2..] == tail;
    } else {
      assert s[0] == c && s[1..] == tail;
    }
  }

  /** Each piece escaped. */
  function EscapeEach(pieces: seq<string>): (r: seq<string>)
    ensures |r| == |pieces|
  {
    seq(|pieces|, i requires 0 <= i < |pieces| => ShellEscape(pieces[i]))
  }

  /** For text without backslashes, escaping the spaces is all the escaping
      the shell needs. */
  lemma {:induction false} ShellEscapeWithoutBackslash(s: string)
    requires '\\' !in s
    ensures ShellEscape(s) == EscapeSpaces(s)
  {
    if s != [] {
      assert '\\' !in s[1..] by {
        assert forall c :: c in s[1..] ==> c in s;
      }
      ShellEscapeWithoutBackslash(s[1..]);
    }
  }

  /** Text with neither spaces nor backslashes is left alone. */
  lemma ShellEscapePlain(s: string)
    requires ' ' !in s && '\\' !in s
    ensures ShellEscape(s) == s
  {
    ShellEscapeWithoutBackslash(s);
    EscapeWithoutSpaces(s);
  }

  /** The shell reads an escaped text as part of the word being read. */
  lemma {:induction false} WordsEscaped(v: string, rest: string, cur: string)
    ensures Words(ShellEscape(v) + rest, cur) == Words(rest, cur + v)
  {
    if v == [] {
      assert ShellEscape(v) + rest == rest;
      assert cur + v == cur;
    } else {
      var tail := ShellEscape(v[1..]) + rest;
      assert ShellEscape(v) + rest == EscapeChar(v[0]) + tail;
      WordsEscapedChar(v[0], tail, cur);
      WordsEscaped(v[1..], rest, cur + [v[0]]);
      assert cur + [v[0]] + v[1..] == cur + v;
    }
  }

  lemma {:induction false} WordsOfEscapedJoin(pieces: seq<string>, cur: string)
    requires |pieces| >= 1
    ensures Words(Join(EscapeEach(pieces)), cur) == NonEmpty([cur + pieces[0]] + pieces[1..])
  {
    var e := EscapeEach(pieces);
    if |pieces| == 1 {
      WordsEscaped(pieces[0], "", cur);
      assert Join(e) + "" == Join(e);
      assert NonEmpty([cur + pieces[0]]) == Word(cur + pieces[0]) + NonEmpty([]);
    } else {
      var tail := Join(e[1..]);
      assert e[1..] == EscapeEach(pieces[1..]);
      assert Join(e) == ShellEscape(pieces[0]) + (" " + tail);
      WordsEscaped(pieces[0], " " + tail, cur);
      var s := " " + tail;
      assert s[0] == ' ' && s[1..] == tail;
      assert Words(s, cur + pieces[0]) == Word(cur + pieces[0]) + Words(tail, "");
      WordsOfEscapedJoin(pieces[1..], "");
      assert "" + pieces[1] == pieces[1];
      assert [pieces[1]] + pieces[2..] == pieces[1..];
      var all := [cur + pieces[0]] + pieces[1..];
      assert all[0] == cur + pieces[0] && all[1..] == pieces[1..];
      assert NonEmpty(all) == Word(cur + pieces[0]) + NonEmpty(pieces[1..]);
    }
  }

  /** Escaping every piece and joining them with single spaces hands the
      shell's reader exactly the pieces back, the empty ones dropped. */
  lemma ShellWordsOfEscapedJoin(pieces: seq<string>)
    ensures ShellWords(Join(EscapeEach(pieces))) == NonEmpty(pieces)
  {
    if pieces != [] {
      WordsOfEscapedJoin(pieces, "");
      assert "" + pieces[0] == pieces[0];
      assert [pieces[0]] + pieces[1..] == pieces;
    }
  }

  lemma {:induction false} WordsWithoutBackslash(s: string, cur: string)
    requires '\\' !in s
    ensures Words(s, cur) == NonEmpty([cur + SplitOnSpace(s)[0]] + SplitOnSpace(s)[1..])
  {
    if s == [] {
      assert cur + "" == cur;
      assert NonEmpty([cur]) == Word(cur) + NonEmpty([]);
    } else {
      assert '\\' !in s[1..] by {
        assert forall c :: c in s[1..] ==> c in s;
      }
      var rest := SplitOnSpace(s[1..]);
      if s[0] == ' ' {
        WordsWithoutBackslash(s[1..], "");
        assert "" + rest[0] == rest[0];
        assert [rest[0]] + rest[1..] == rest;
        var all := [cur + ""] + rest;
        assert SplitOnSpace(s) == [""] + rest;
        assert all[0] == cur && all[1..] == rest;
        assert cur + "" == cur;
      } else {
        WordsWithoutBackslash(s[1..], cur + [s[0]]);
        assert cur + [s[0]] + rest[0] == cur + ([s[0]] + rest[0]);
      }
    }
  }

  /** Text the shell reads as it stands: no space, no backslash. */
  predicate Plain(s: string) {
    ' ' !in s && '\\' !in s
  }

  /** A character in none of the tokens is in their join only if it is the
      separator. */
  lemma {:induction false} JoinWithout(tokens: seq<string>, c: char)
    requires c != ' '
    requires forall i :: 0 <= i < |tokens| ==> c !in tokens[i]
    ensures c !in Join(tokens)
  {
    if |tokens| >= 2 {
      JoinWithout(tokens[1..], c);
    }
  }

  /** A token holding one space joins to the same text as its two halves. */
  lemma {:induction false} JoinSpacedToken(before: seq<string>, u: string, w: string, after: seq<string>)
    ensures Join(before + [u + " " + w] + after) == Join(before + [u, w] + after)
  {
    if before == [] {
      assert before + [u + " " + w] + after == [u + " " + w] + after;
      assert before + [u, w] + after == [u] + ([w] + after);
      assert ([u] + ([w] + after))[1..] == [w] + after;
      if after != [] {
        assert ([w] + after)[1..] == after;
        assert ([u + " " + w] + after)[1..] == after;
        assert u + " " + w + " " + Join(after) == u + " " + (w + " " + Join(after));
      }
    } else {
      JoinSpacedToken(before[1..], u, w, after);
      assert (before + [u + " " + w] + after)[1..] == before[1..] + [u + " " + w] + after;
      assert (before + [u, w] + after)[1..] == before[1..] + [u, w] + after;
    }
  }

  /** Text without backslashes reads, in the shell, as its pieces between
      spaces with the empty ones dropped: every space separates words. */
  lemma ShellWordsWithoutBackslash(s: string)
    requires '\\' !in s
    ensures ShellWords(s) == NonEmpty(SplitOnSpace(s))
  {
    WordsWithoutBackslash(s, "");
    var r := SplitOnSpace(s);
    assert "" + r[0] == r[0];
    assert [r[0]] + r[1..] == r;
  }

  // ---------------------------------------------------------------------
  // Capitalisation (ASCII letters)
  // ---------------------------------------------------------------------

  function Upper(c: char): char {
    if 'a' <= c <= 'z' then (c as int - 32) as char else c
  }

  function Lower(c: char): char {
    if 'A' <= c <= 'Z' then (c as int + 32) as char else c
  }

  function Lowered(s: string): (r: string) {
    seq(|s|, i requires 0 <= i < |s| => Lower(s[i]))
  }

  /** `s.capitalize()`: first character upper case, the rest lower case. */
  function Capitalize(s: string): string {
    if s == [] then "" else [Upper(s[0])] + Lowered(s[1..])
  }

  /** A word already in capitalised form is what `capitalize` yields from
      exactly the strings that equal it when case is ignored. */
  lemma CapitalizeMatchesIgnoringCase(s: string, w: string)
    requires Capitalize(w) == w
    ensures Capitalize(s) == w <==> Lowered(s) == Lowered(w)
  {
    if Capitalize(s) == w && s != [] {
      assert Lower(Upper(s[0])) == Lower(s[0]);
      assert Lower(Upper(w[0])) == Lower(w[0]);
      forall i | 1 <= i < |s| ensures Lower(s[i]) == Lower(w[i]) {
        assert w[i] == Capitalize(w)[i] == Lower(w[i]);
        assert w[i] == Capitalize(s)[i] == Lower(s[i]);
      }
    }
    if Lowered(s) == Lowered(w) && s != [] {
      assert |s| == |w|;
      assert Lower(s[0]) == Lowered(s)[0] == Lowered(w)[0] == Lower(w[0]);
      assert Upper(Lower(s[0])) == Upper(s[0]);
      assert Upper(Lower(w[0])) == Upper(w[0]) == w[0];
      forall i | 1 <= i < |s| ensures Capitalize(s)[i] == w[i] {
        assert Lower(s[i]) == Lowered(s)[i] == Lowered(w)[i] == Lower(w[i]);
        assert w[i] == Capitalize(w)[i] == Lowered(w[1..])[i - 1] == Lower(w[i]);
        assert Capitalize(s)[i] == Lowered(s[1..])[i - 1] == Lower(s[i]);
      }
    }
  }

  // ---------------------------------------------------------------------
  // Decimal rendering of a count
  // ---------------------------------------------------------------------

  function Digit(d: nat): char
    requires d < 10
  {
    ('0' as int + d) as char
  }

  /** `str(n)` for a non-negative integer: decimal digits, no leading zero. */
  function NatToDecimal(n: nat): (r: string)
    ensures |r| >= 1
    ensures forall i :: 0 <= i < |r| ==> '0' <= r[i] <= '9'
    ensures r[0] == '0' ==> r == "0"
  {
    if n < 10 then [Digit(n)] else NatToDecimal(n / 10) + [Digit(n % 10)]
  }

  /** The number a string of decimal digits denotes. */
  function DecimalValue(s: string): int {
    if s == [] then 0
    else DecimalValue(s[..|s| - 1]) * 10 + (s[|s| - 1] as int - '0' as int)
  }

  lemma {:induction false} DecimalRoundTrip(n: nat)
    ensures DecimalValue(NatToDecimal(n)) == n
  {
    if n >= 10 {
      DecimalRoundTrip(n / 10);
      var r := NatToDecimal(n);
      assert r[..|r| - 1] == NatToDecimal(n / 10);
    }
  }
}
