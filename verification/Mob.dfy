/** The proxy's rewriting of address tokens in a line. */
module Mob {
  const BOGUS := "7YWHMfk9JZe0LM0g1ZauHuiSxhI"

  /** unicode.IsSpace. */
  predicate IsSpace(c: char) {
    || c == ' ' || '\t' <= c <= '\r'
    || c == '\U{0085}' || c == '\U{00a0}' || c == '\U{1680}' || '\U{2000}' <= c <= '\U{200a}'
    || c == '\U{2028}' || c == '\U{2029}' || c == '\U{202f}' || c == '\U{205f}' || c == '\U{3000}'
  }

  predicate IsAlphanumeric(c: char) {
    'a' <= c <= 'z' || 'A' <= c <= 'Z' || '0' <= c <= '9'
  }

  /** The pattern ^7[a-zA-Z0-9]{25,34}$. */
  predicate IsAddress(w: string) {
    26 <= |w| <= 35 && w[0] == '7' && forall i :: 1 <= i < |w| ==> IsAlphanumeric(w[i])
  }

  predicate IsWord(w: string) {
    w != "" && forall i :: 0 <= i < |w| ==> !IsSpace(w[i])
  }

  ghost predicate AllWords(ws: seq<string>) {
    forall i :: 0 <= i < |ws| ==> IsWord(ws[i])
  }

  function Pending(word: string): seq<string> {
    if word == "" then [] else [word]
  }

  /** strings.FieldsFunc, with the word read so far. */
  function FieldsFrom(s: string, word: string): seq<string>
    decreases |s|
  {
    if s == "" then Pending(word)
    else if IsSpace(s[0]) then Pending(word) + FieldsFrom(s[1..], "")
    else FieldsFrom(s[1..], word + [s[0]])
  }

  function Fields(s: string): seq<string> {
    FieldsFrom(s, "")
  }

  function Join(ws: seq<string>): string {
    if ws == [] then "" else if |ws| == 1 then ws[0] else ws[0] + " " + Join(ws[1..])
  }

  /** Each address token replaced, the rest unchanged, in order. */
  function Replaced(ws: seq<string>): (r: seq<string>)
    ensures |r| == |ws|
    ensures forall i :: 0 <= i < |ws| ==> r[i] == if IsAddress(ws[i]) then BOGUS else ws[i]
  {
    seq(|ws|, i requires 0 <= i < |ws| => if IsAddress(ws[i]) then BOGUS else ws[i])
  }

  lemma {:induction false} FieldsAreWords(s: string, word: string)
    requires word == "" || IsWord(word)
    ensures AllWords(FieldsFrom(s, word))
    decreases |s|
  {
    if s != "" {
      if IsSpace(s[0]) {
        FieldsAreWords(s[1..], "");
      } else {
        FieldsAreWords(s[1..], word + [s[0]]);
      }
    }
  }

  /** Reading a space-free word extends the word read so far. */
  lemma {:induction false} ReadWord(w: string, rest: string, word: string)
    requires forall i :: 0 <= i < |w| ==> !IsSpace(w[i])
    ensures FieldsFrom(w + rest, word) == FieldsFrom(rest, word + w)
    decreases |w|
  {
    if w == "" {
      assert w + rest == rest && word + w == word;
    } else {
      assert (w + rest)[1..] == w[1..] + rest;
      assert word + w == (word + [w[0]]) + w[1..];
      ReadWord(w[1..], rest, word + [w[0]]);
    }
  }

  /** Splitting undoes joining, for nonempty space-free words. */
  lemma {:induction false} SplitJoin(ws: seq<string>)
    requires AllWords(ws)
    ensures Fields(Join(ws)) == ws
    decreases |ws|
  {
    if |ws| == 1 {
      ReadWord(ws[0], "", "");
      assert ws[0] + "" == ws[0] && "" + ws[0] == ws[0];
    } else if |ws| > 1 {
      var rest := " " + Join(ws[1..]);
      assert Join(ws) == ws[0] + rest && "" + ws[0] == ws[0];
      ReadWord(ws[0], rest, "");
      assert rest[1..] == Join(ws[1..]);
      SplitJoin(ws[1..]);
      assert ws == [ws[0]] + ws[1..];
    }
  }

  lemma {:induction false} SplitFrom(a: string, c: char, b: string, word: string)
    requires IsSpace(c)
    ensures FieldsFrom(a + [c] + b, word) == FieldsFrom(a, word) + Fields(b)
    decreases |a|
  {
    var line := a + [c] + b;
    if a == "" {
      assert line[1..] == b;
    } else {
      assert line[1..] == a[1..] + [c] + b;
      SplitFrom(a[1..], c, b, if IsSpace(a[0]) then "" else word + [a[0]]);
    }
  }

  /** What fixes the split completely: it breaks at every space character, and a space-free word is one token. */
  lemma FieldsSplitAtSpaces(a: string, c: char, b: string, w: string)
    requires IsSpace(c) && IsWord(w)
    ensures Fields(a + [c] + b) == Fields(a) + Fields(b)
    ensures Fields(w) == [w] && Fields("") == []
  {
    SplitFrom(a, c, b, "");
    ReadWord(w, "", "");
    assert w + "" == w && "" + w == w;
  }

  lemma BogusIsAddress()
    ensures IsAddress(BOGUS) && IsWord(BOGUS)
  {
  }

  /** The whole line transform, as a value. */
  function Rewritten(line: string): string {
    Join(Replaced(Fields(line)))
  }

  /** The tokens of the rewritten line are the tokens of the line, address tokens replaced. */
  lemma RewriteTokens(line: string)
    ensures Fields(Rewritten(line)) == Replaced(Fields(line))
  {
    FieldsAreWords(line, "");
    BogusIsAddress();
    SplitJoin(Replaced(Fields(line)));
  }

  /** No address but the fixed one survives. */
  lemma NoOtherAddress(line: string, token: string)
    requires token in Fields(Rewritten(line)) && IsAddress(token)
    ensures token == BOGUS
  {
    RewriteTokens(line);
    BogusIsAddress();
  }

  lemma RewriteIdempotent(line: string)
    ensures Rewritten(Rewritten(line)) == Rewritten(line)
  {
    RewriteTokens(line);
    BogusIsAddress();
    assert Replaced(Replaced(Fields(line))) == Replaced(Fields(line));
  }

  /** A letter or digit, by its code. */
  predicate InPattern(c: char) {
    48 <= c as int <= 57 || 65 <= c as int <= 90 || 97 <= c as int <= 122
  }

  /** The word is a 7 followed by 25 to 34 of these characters. */
  ghost predicate SevenAndLetters(w: string) {
    exists rest :: w == "7" + rest && 25 <= |rest| <= 34 && forall i :: 0 <= i < |rest| ==> InPattern(rest[i])
  }

  lemma AddressExactly(w: string)
    ensures IsAddress(w) <==> SevenAndLetters(w)
  {
    if IsAddress(w) {
      assert w == "7" + w[1..];
    }
  }

  /** Token by token: a 7 with 25 to 34 letters or digits behind it becomes the fixed address, any other token
      stays. */
  lemma TokenExactly(line: string, i: nat)
    requires i < |Fields(line)|
    ensures |Fields(Rewritten(line))| == |Fields(line)|
    ensures Fields(Rewritten(line))[i]
            == if SevenAndLetters(Fields(line)[i]) then "7YWHMfk9JZe0LM0g1ZauHuiSxhI" else Fields(line)[i]
  {
    RewriteTokens(line);
    AddressExactly(Fields(line)[i]);
  }

  /** Among the ASCII characters the separators are the blank and the characters 9 to 13. */
  lemma AsciiSpaces(c: char)
    requires c as int < 128
    ensures IsSpace(c) <==> c as int in {9, 10, 11, 12, 13, 32}
  {
  }

  /** The loop of HandleClient: words overwritten in place. */
  method Rewrite(line: string) returns (value: string)
    ensures value == Rewritten(line)
    ensures Fields(value) == Replaced(Fields(line))
  {
    var fields := Fields(line);
    var words := new string[|fields|](i requires 0 <= i < |fields| => fields[i]);
    var i := 0;
    while i < words.Length
      invariant 0 <= i <= words.Length
      invariant forall k :: 0 <= k < words.Length ==> words[k] == if k < i then Replaced(fields)[k] else fields[k]
    {
      if IsAddress(words[i]) {
        words[i] := BOGUS;
      }
      i := i + 1;
    }
    assert words[..] == Replaced(fields);
    value := Join(words[..]);
    RewriteTokens(line);
  }
}
