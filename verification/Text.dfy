// Whitespace handling of Go's strings and unicode packages.
module Text {

  // unicode.IsSpace
  predicate IsSpace(c: char) {
    c == '\t' || c == '\n' || c == '\U{000B}' || c == '\U{000C}' || c == '\r' || c == ' ' ||
    c == '\U{0085}' || c == '\U{00A0}' || c == '\U{1680}' || ('\U{2000}' <= c <= '\U{200A}') ||
    c == '\U{2028}' || c == '\U{2029}' || c == '\U{202F}' || c == '\U{205F}' || c == '\U{3000}'
  }

  function TrimLeft(s: string): string {
    if s != [] && IsSpace(s[0]) then TrimLeft(s[1..]) else s
  }

  function TrimRight(s: string): string {
    if s != [] && IsSpace(s[|s| - 1]) then TrimRight(s[..|s| - 1]) else s
  }

  // strings.TrimSpace
  function Trim(s: string): string {
    TrimRight(TrimLeft(s))
  }

  predicate Blank(s: string) {
    Trim(s) == ""
  }

  // The length of the leading run of non-space characters.
  function RunLength(s: string): (n: nat)
    ensures n <= |s| && forall i :: 0 <= i < n ==> !IsSpace(s[i])
    ensures n < |s| ==> IsSpace(s[n])
  {
    if s != [] && !IsSpace(s[0]) then 1 + RunLength(s[1..]) else 0
  }

  lemma {:induction false} TrimLeftShape(s: string)
    ensures |TrimLeft(s)| <= |s|
    ensures TrimLeft(s) != [] ==> !IsSpace(TrimLeft(s)[0])
    ensures s != [] && !IsSpace(s[0]) ==> TrimLeft(s) == s
  {
    if s != [] && IsSpace(s[0]) {
      TrimLeftShape(s[1..]);
    }
  }

  lemma {:induction false} TrimRightShape(s: string)
    ensures TrimRight(s) <= s
    ensures TrimRight(s) != [] ==> !IsSpace(TrimRight(s)[|TrimRight(s)| - 1])
    ensures s != [] && !IsSpace(s[0]) ==> TrimRight(s) != []
    ensures s != [] && !IsSpace(s[|s| - 1]) ==> TrimRight(s) == s
    ensures TrimRight(s) == [] ==> forall i :: 0 <= i < |s| ==> IsSpace(s[i])
  {
    if s != [] && IsSpace(s[|s| - 1]) {
      TrimRightShape(s[..|s| - 1]);
      assert s[..|s| - 1] <= s;
    }
  }

  // A trimmed text is not trimmed further.
  lemma TrimTwice(s: string)
    ensures Trim(Trim(s)) == Trim(s)
  {
    TrimLeftShape(s);
    TrimRightShape(TrimLeft(s));
    TrimLeftShape(Trim(s));
    TrimRightShape(Trim(s));
  }

  lemma {:induction false} LeftOfSpaces(s: string)
    ensures TrimLeft(s) == [] <==> forall i :: 0 <= i < |s| ==> IsSpace(s[i])
  {
    if s != [] && IsSpace(s[0]) {
      LeftOfSpaces(s[1..]);
      forall i | TrimLeft(s) == [] && 0 <= i < |s| ensures IsSpace(s[i]) {
        if i > 0 {
          assert s[i] == s[1..][i - 1];
        }
      }
    }
  }

  // Trimming leaves nothing exactly of the texts made of space alone.
  lemma BlankExactly(s: string)
    ensures Blank(s) <==> forall c :: c in s ==> IsSpace(c)
  {
    LeftOfSpaces(s);
    TrimLeftShape(s);
    TrimRightShape(TrimLeft(s));
  }

  // strings.Fields
  function Words(s: string): seq<string>
    decreases |s|
  {
    TrimLeftShape(s);
    var t := TrimLeft(s);
    if t == [] then []
    else
      assert RunLength(t) > 0;
      [t[..RunLength(t)]] + Words(t[RunLength(t)..])
  }

  // strings.Join(words, " ")
  function Spaced(words: seq<string>): string {
    if words == [] then ""
    else if |words| == 1 then words[0]
    else words[0] + " " + Spaced(words[1..])
  }

  predicate IsWord(w: string) {
    w != "" && forall i :: 0 <= i < |w| ==> !IsSpace(w[i])
  }

  lemma {:induction false} WordsAreWords(s: string)
    ensures forall i :: 0 <= i < |Words(s)| ==> IsWord(Words(s)[i])
    decreases |s|
  {
    TrimLeftShape(s);
    var t := TrimLeft(s);
    if t != [] {
      assert RunLength(t) > 0;
      WordsAreWords(t[RunLength(t)..]);
    }
  }

  lemma {:induction false} RunOfWord(w: string, rest: string)
    requires IsWord(w) && (rest == "" || IsSpace(rest[0]))
    ensures RunLength(w + rest) == |w|
  {
    if |w| == 1 {
      assert (w + rest)[1..] == rest;
    } else {
      assert (w + rest)[1..] == w[1..] + rest;
      RunOfWord(w[1..], rest);
    }
  }

  lemma WordsOfWord(w: string, rest: string)
    requires IsWord(w) && (rest == "" || IsSpace(rest[0]))
    ensures Words(w + rest) == [w] + Words(rest)
  {
    var s := w + rest;
    TrimLeftShape(s);
    RunOfWord(w, rest);
    assert s[..|w|] == w && s[|w|..] == rest;
  }

  // Words put in line with single spaces are read back as they were.
  lemma {:induction false} WordsOfSpaced(words: seq<string>)
    requires forall i :: 0 <= i < |words| ==> IsWord(words[i])
    ensures Words(Spaced(words)) == words
  {
    if |words| == 1 {
      WordsOfWord(words[0], "");
      assert words[0] + "" == words[0] && Words("") == [];
    } else if |words| > 1 {
      var rest := Spaced(words[1..]);
      WordsOfSpaced(words[1..]);
      assert IsSpace((" " + rest)[0]) && (" " + rest)[1..] == rest;
      WordsOfWord(words[0], " " + rest);
      assert words[0] + (" " + rest) == words[0] + " " + rest;
      assert TrimLeft(" " + rest) == TrimLeft(rest);
    }
  }

  // Collapsing whitespace forgets nothing but whitespace: two texts collapse alike exactly
  // when they are the same words.
  lemma CollapsedExactly(s: string, t: string)
    ensures Spaced(Words(s)) == Spaced(Words(t)) <==> Words(s) == Words(t)
  {
    WordsAreWords(s);
    WordsAreWords(t);
    WordsOfSpaced(Words(s));
    WordsOfSpaced(Words(t));
  }
}
