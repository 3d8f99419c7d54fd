/** Python string helpers on ASCII text, and the two normalisers built from them. */
module Text {
  import opened Options

  // ---- characters -------------------------------------------------------

  predicate IsSpace(c: char) {
    var n := c as int;
    n == 32 || 9 <= n <= 13 || 28 <= n <= 31
  }

  predicate IsAlnum(c: char) {
    'a' <= c <= 'z' || 'A' <= c <= 'Z' || '0' <= c <= '9'
  }

  function LowerChar(c: char): char {
    if 'A' <= c <= 'Z' then (c as int + 32) as char else c
  }

  function UpperChar(c: char): char {
    if 'a' <= c <= 'z' then (c as int - 32) as char else c
  }

  // ---- str.lower, str.strip, str.split, str.join ------------------------

  function Lower(s: string): (r: string)
    ensures |r| == |s|
    ensures forall i :: 0 <= i < |s| ==> r[i] == LowerChar(s[i])
  {
    seq(|s|, i requires 0 <= i < |s| => LowerChar(s[i]))
  }

  function Upper(s: string): (r: string)
    ensures |r| == |s|
    ensures forall i :: 0 <= i < |s| ==> r[i] == UpperChar(s[i])
  {
    seq(|s|, i requires 0 <= i < |s| => UpperChar(s[i]))
  }

  function Strip(s: string): string {
    if s == "" then ""
    else if IsSpace(s[0]) then Strip(s[1..])
    else if IsSpace(s[|s| - 1]) then Strip(s[..|s| - 1])
    else s
  }

  /** A maximal run of non-blank characters is what `split()` returns. */
  predicate IsWord(w: string) {
    w != "" && forall i :: 0 <= i < |w| ==> !IsSpace(w[i])
  }

  function WordEnd(s: string): (n: nat)
    ensures n <= |s|
    ensures forall i :: 0 <= i < n ==> !IsSpace(s[i])
    ensures n < |s| ==> IsSpace(s[n])
  {
    if s == "" || IsSpace(s[0]) then 0 else 1 + WordEnd(s[1..])
  }

  function Split(s: string): (words: seq<string>)
    ensures forall i :: 0 <= i < |words| ==> IsWord(words[i])
    decreases |s|
  {
    if s == "" then []
    else if IsSpace(s[0]) then Split(s[1..])
    else
      var n := WordEnd(s);
      [s[..n]] + Split(s[n..])
  }

  function Join(words: seq<string>): string {
    if words == [] then ""
    else if |words| == 1 then words[0]
    else words[0] + " " + Join(words[1..])
  }

  lemma WordEndOf(w: string, rest: string)
    requires forall i :: 0 <= i < |w| ==> !IsSpace(w[i])
    requires rest != "" ==> IsSpace(rest[0])
    ensures WordEnd(w + rest) == |w|
  {
    var s := w + rest;
    assert forall i :: 0 <= i < |w| ==> s[i] == w[i];
    assert rest != "" ==> s[|w|] == rest[0];
  }

  /** Joining words with single blanks and splitting again recovers them. */
  lemma {:induction false} SplitOfJoin(words: seq<string>)
    requires forall i :: 0 <= i < |words| ==> IsWord(words[i])
    ensures Split(Join(words)) == words
  {
    if |words| == 1 {
      WordEndOf(words[0], "");
      assert words[0] + "" == words[0];
      assert words[0][..|words[0]|] == words[0];
    } else if |words| > 1 {
      var rest := " " + Join(words[1..]);
      var s := words[0] + rest;
      assert Join(words) == s;
      WordEndOf(words[0], rest);
      assert s[..|words[0]|] == words[0] && s[|words[0]|..] == rest;
      assert s[0] == words[0][0];
      assert rest[1..] == Join(words[1..]);
      SplitOfJoin(words[1..]);
    }
  }

  lemma {:induction false} SplitIgnoresTrailingSpace(s: string, c: char)
    requires IsSpace(c)
    ensures Split(s + [c]) == Split(s)
    decreases |s|
  {
    var t := s + [c];
    if s == "" {
      assert t[1..] == "";
    } else if IsSpace(s[0]) {
      assert t[1..] == s[1..] + [c];
      SplitIgnoresTrailingSpace(s[1..], c);
    } else {
      var n := WordEnd(s);
      var rest := s[n..];
      assert s == s[..n] + rest;
      assert t == s[..n] + (rest + [c]);
      WordEndOf(s[..n], rest + [c]);
      assert t[..n] == s[..n] && t[n..] == rest + [c];
      SplitIgnoresTrailingSpace(rest, c);
    }
  }

  lemma {:induction false} SplitIgnoresStrip(s: string)
    ensures Split(Strip(s)) == Split(s)
    decreases |s|
  {
    if s == "" {
    } else if IsSpace(s[0]) {
      SplitIgnoresStrip(s[1..]);
    } else if IsSpace(s[|s| - 1]) {
      var init := s[..|s| - 1];
      assert s == init + [s[|s| - 1]];
      SplitIgnoresTrailingSpace(init, s[|s| - 1]);
      SplitIgnoresStrip(init);
    }
  }

  lemma {:induction false} StripLowerCommute(s: string)
    ensures Lower(Strip(s)) == Strip(Lower(s))
    decreases |s|
  {
    if s != "" {
      var l := Lower(s);
      if IsSpace(s[0]) {
        assert Lower(s[1..]) == l[1..];
        StripLowerCommute(s[1..]);
      } else if IsSpace(s[|s| - 1]) {
        assert Lower(s[..|s| - 1]) == l[..|l| - 1];
        StripLowerCommute(s[..|s| - 1]);
      }
    }
  }

  // ---- _normalize_text --------------------------------------------------

  function NormalizeText(value: Option<string>): string {
    if value.None? || value.value == "" then ""
    else Join(Split(Lower(Strip(value.value))))
  }

  /** The lower-case words of a value: all that `NormalizeText` depends on. */
  function WordsOf(value: Option<string>): seq<string> {
    if value.None? then [] else Split(Lower(value.value))
  }

  lemma NormalizeTextJoinsWords(value: Option<string>)
    ensures NormalizeText(value) == Join(WordsOf(value))
    ensures Split(NormalizeText(value)) == WordsOf(value)
  {
    if value.Some? && value.value != "" {
      StripLowerCommute(value.value);
      SplitIgnoresStrip(Lower(value.value));
    }
    SplitOfJoin(WordsOf(value));
  }

  /** Two values normalise alike exactly when their lower-case words agree. */
  lemma NormalizeTextDecidesWords(a: Option<string>, b: Option<string>)
    ensures NormalizeText(a) == NormalizeText(b) <==> WordsOf(a) == WordsOf(b)
  {
    NormalizeTextJoinsWords(a);
    NormalizeTextJoinsWords(b);
  }

  predicate IsLower(s: string) {
    forall i :: 0 <= i < |s| ==> LowerChar(s[i]) == s[i]
  }

  lemma {:induction false} SplitStaysLower(s: string)
    requires IsLower(s)
    ensures forall i :: 0 <= i < |Split(s)| ==> IsLower(Split(s)[i])
    decreases |s|
  {
    if s == "" {
    } else if IsSpace(s[0]) {
      SplitStaysLower(s[1..]);
    } else {
      var n := WordEnd(s);
      SplitStaysLower(s[n..]);
      forall i | 0 <= i < |Split(s)| ensures IsLower(Split(s)[i]) {
        if i > 0 { assert Split(s)[i] == Split(s[n..])[i - 1]; }
      }
    }
  }

  lemma {:induction false} JoinStaysLower(words: seq<string>)
    requires forall i :: 0 <= i < |words| ==> IsLower(words[i])
    ensures IsLower(Join(words))
  {
    if |words| > 1 {
      JoinStaysLower(words[1..]);
      assert IsLower(" ");
    }
  }

  lemma NormalizeTextIdempotent(value: Option<string>)
    ensures NormalizeText(Some(NormalizeText(value))) == NormalizeText(value)
  {
    var t := NormalizeText(value);
    NormalizeTextJoinsWords(value);
    if value.Some? {
      SplitStaysLower(Lower(value.value));
      JoinStaysLower(WordsOf(value));
    }
    assert Lower(t) == t;
    NormalizeTextJoinsWords(Some(t));
  }

  // ---- _normalize_code --------------------------------------------------

  function Code(s: string): string {
    if s == "" then ""
    else
      var c := UpperChar(s[0]);
      (if IsAlnum(c) then [c] else "") + Code(s[1..])
  }

  function NormalizeCode(value: Option<string>): string {
    if value.None? then "" else Code(value.value)
  }

  lemma {:induction false} CodeOfConcat(a: string, b: string)
    ensures Code(a + b) == Code(a) + Code(b)
  {
    if a == "" {
      assert a + b == b;
    } else {
      var c := UpperChar(a[0]);
      var head := if IsAlnum(c) then [c] else "";
      assert (a + b)[0] == a[0] && (a + b)[1..] == a[1..] + b;
      assert Code(a + b) == head + Code(a[1..] + b);
      assert Code(a) == head + Code(a[1..]);
      CodeOfConcat(a[1..], b);
    }
  }

  lemma {:induction false} CodeOfPunctuation(s: string)
    requires forall i :: 0 <= i < |s| ==> !IsAlnum(s[i])
    ensures Code(s) == ""
  {
    if s != "" {
      assert !IsAlnum(s[0]);
      CodeOfPunctuation(s[1..]);
    }
  }

  /** Blanks, dashes and other punctuation put anywhere in an identifier do not change its code. */
  lemma CodeIgnoresPunctuation(a: string, punctuation: string, b: string)
    requires forall i :: 0 <= i < |punctuation| ==> !IsAlnum(punctuation[i])
    ensures Code(a + punctuation + b) == Code(a + b)
  {
    CodeOfConcat(a + punctuation, b);
    CodeOfConcat(a, punctuation);
    CodeOfConcat(a, b);
    CodeOfPunctuation(punctuation);
  }

  lemma {:induction false} CodeIgnoresCase(s: string)
    ensures Code(Lower(s)) == Code(s)
  {
    if s != "" {
      assert Lower(s)[1..] == Lower(s[1..]);
      CodeIgnoresCase(s[1..]);
    }
  }

  lemma {:induction false} CodeIdempotent(s: string)
    ensures Code(Code(s)) == Code(s)
  {
    if s != "" {
      var c := UpperChar(s[0]);
      CodeIdempotent(s[1..]);
      if IsAlnum(c) {
        assert Code(s)[1..] == Code(s[1..]);
      } else {
        assert Code(s) == Code(s[1..]);
      }
    }
  }

  // ---- invoice numbers --------------------------------------------------

  /** The form in which two invoice numbers are compared: `strip().lower()`. */
  function CanonicalNumber(number: string): string {
    Lower(Strip(number))
  }

  // ---- the same things in character codes ---------------------------------

  /** Space, tab to carriage return, and the four separators: what blanks are in ASCII. */
  predicate BlankCode(n: int) {
    n in {9, 10, 11, 12, 13, 28, 29, 30, 31, 32}
  }

  /** Equal, or the capital and the small form of one letter. */
  predicate SameLetter(m: int, n: int) {
    m == n || (65 <= m <= 90 && n == m + 32) || (65 <= n <= 90 && m == n + 32)
  }

  lemma CharactersAreTheirCodes(c: char, d: char)
    ensures IsSpace(c) <==> BlankCode(c as int)
    ensures IsAlnum(c) <==> 48 <= c as int <= 57 || 65 <= c as int <= 90 || 97 <= c as int <= 122
    ensures LowerChar(c) as int == if 65 <= c as int <= 90 then c as int + 32 else c as int
    ensures UpperChar(c) as int == if 97 <= c as int <= 122 then c as int - 32 else c as int
    ensures LowerChar(c) == LowerChar(d) <==> SameLetter(c as int, d as int)
    ensures UpperChar(c) == UpperChar(d) <==> SameLetter(c as int, d as int)
  {
  }

  /** All characters are blanks. */
  predicate AllBlank(s: string) {
    forall i :: 0 <= i < |s| ==> BlankCode(s[i] as int)
  }

  /** `s[i..j]` is what is left when the outer blanks are taken away. */
  predicate Trimmed(s: string, i: int, j: int) {
    && 0 <= i <= j <= |s|
    && (forall x :: 0 <= x < |s| && !(i <= x < j) ==> BlankCode(s[x] as int))
    && (i < j ==> !BlankCode(s[i] as int) && !BlankCode(s[j - 1] as int))
  }

  /** The same text, up to outer blanks and the case of letters. */
  ghost predicate SameText(a: string, b: string) {
    exists i, j, k, l :: Trimmed(a, i, j) && Trimmed(b, k, l) && SameLetters(a[i..j], b[k..l])
  }

  predicate SameLetters(x: string, y: string) {
    |x| == |y| && forall n :: 0 <= n < |x| ==> SameLetter(x[n] as int, y[n] as int)
  }

  lemma TrimmedInFront(s: string, t: string, i: int, j: int)
    requires s != "" && t == s[1..] && IsSpace(s[0]) && Trimmed(t, i, j) && Strip(t) == t[i..j]
    ensures Trimmed(s, i + 1, j + 1) && Strip(s) == s[i + 1..j + 1]
  {
    CharactersAreTheirCodes(s[0], s[0]);
    assert forall x :: 0 < x < |s| ==> s[x] == t[x - 1];
  }

  lemma TrimmedBehind(s: string, t: string, i: int, j: int)
    requires s != "" && t == s[..|s| - 1] && !IsSpace(s[0]) && IsSpace(s[|s| - 1])
    requires Trimmed(t, i, j) && Strip(t) == t[i..j]
    ensures Trimmed(s, i, j) && Strip(s) == s[i..j]
  {
    CharactersAreTheirCodes(s[|s| - 1], s[|s| - 1]);
    assert forall x :: 0 <= x < |s| - 1 ==> s[x] == t[x];
  }

  /** `Strip` takes away just the outer blanks. */
  lemma {:induction false} StripTrims(s: string) returns (i: int, j: int)
    ensures Trimmed(s, i, j) && Strip(s) == s[i..j]
    decreases |s|
  {
    if s == "" {
      i, j := 0, 0;
    } else {
      CharactersAreTheirCodes(s[0], s[0]);
      CharactersAreTheirCodes(s[|s| - 1], s[|s| - 1]);
      if IsSpace(s[0]) {
        var t := s[1..];
        var k, l := StripTrims(t);
        TrimmedInFront(s, t, k, l);
        i, j := k + 1, l + 1;
      } else if IsSpace(s[|s| - 1]) {
        var t := s[..|s| - 1];
        i, j := StripTrims(t);
        TrimmedBehind(s, t, i, j);
      } else {
        i, j := 0, |s|;
      }
    }
  }

  lemma TrimmedIsUnique(s: string, i: int, j: int, k: int, l: int)
    requires Trimmed(s, i, j) && Trimmed(s, k, l)
    ensures s[i..j] == s[k..l]
  {
    assert i < j ==> k <= i && j <= l;
    assert k < l ==> i <= k && l <= j;
  }

  lemma LowersAgree(x: string, y: string)
    ensures Lower(x) == Lower(y) <==> SameLetters(x, y)
  {
    if SameLetters(x, y) {
      forall n | 0 <= n < |x| ensures Lower(x)[n] == Lower(y)[n] {
        CharactersAreTheirCodes(x[n], y[n]);
      }
    }
    if Lower(x) == Lower(y) {
      forall n | 0 <= n < |x| ensures SameLetter(x[n] as int, y[n] as int) {
        assert Lower(x)[n] == Lower(y)[n];
        CharactersAreTheirCodes(x[n], y[n]);
      }
    }
  }

  /** Two invoice numbers have the same canonical form exactly when they are the same text. */
  lemma CanonicalNumberDecides(a: string, b: string)
    ensures CanonicalNumber(a) == CanonicalNumber(b) <==> SameText(a, b)
  {
    var i, j := StripTrims(a);
    var k, l := StripTrims(b);
    LowersAgree(a[i..j], b[k..l]);
    if SameText(a, b) {
      var p, q, r, t :| Trimmed(a, p, q) && Trimmed(b, r, t) && SameLetters(a[p..q], b[r..t]);
      TrimmedIsUnique(a, i, j, p, q);
      TrimmedIsUnique(b, k, l, r, t);
    }
  }

  /** Blanks around a number and the case of its letters make no difference. */
  lemma CanonicalNumberIgnores(before: string, number: string, after: string, other: string)
    requires AllBlank(before) && AllBlank(after) && SameLetters(number, other)
    ensures CanonicalNumber(before + other + after) == CanonicalNumber(number)
  {
    var i, j := StripTrims(number);
    var wide := before + other + after;
    var n := |before|;
    assert wide[n + i..n + j] == other[i..j];
    forall x | 0 <= x < |wide| && !(n + i <= x < n + j) ensures BlankCode(wide[x] as int) {
      if n <= x < n + |other| {
        assert BlankCode(number[x - n] as int);
      }
    }
    assert Trimmed(wide, n + i, n + j);
    assert SameLetters(wide[n + i..n + j], number[i..j]);
    assert SameText(wide, number);
    CanonicalNumberDecides(wide, number);
  }

  // ---- words and codes, from any spacing and punctuation ---------------------

  /** Words with these stretches before, between and after them. */
  function Spread(gaps: seq<string>, words: seq<string>): string
    requires |gaps| == |words| + 1
  {
    if words == [] then gaps[0] else gaps[0] + words[0] + Spread(gaps[1..], words[1..])
  }

  /** Blank stretches, none of them empty except the outer two. */
  predicate Separates(gaps: seq<string>) {
    forall i :: 0 <= i < |gaps| ==> AllBlank(gaps[i]) && (0 < i < |gaps| - 1 ==> gaps[i] != "")
  }

  /** No blanks inside a word, in character codes. */
  predicate Solid(w: string) {
    w != "" && forall i :: 0 <= i < |w| ==> !BlankCode(w[i] as int)
  }

  lemma {:induction false} SplitSkipsBlanks(gap: string, s: string)
    requires AllBlank(gap)
    ensures Split(gap + s) == Split(s)
    decreases |gap|
  {
    if gap == "" {
      assert gap + s == s;
    } else {
      CharactersAreTheirCodes(gap[0], gap[0]);
      assert (gap + s)[0] == gap[0] && (gap + s)[1..] == gap[1..] + s;
      SplitSkipsBlanks(gap[1..], s);
    }
  }

  lemma SplitTakesWord(w: string, rest: string)
    requires Solid(w) && (rest != "" ==> BlankCode(rest[0] as int))
    ensures Split(w + rest) == [w] + Split(rest)
  {
    forall i | 0 <= i < |w| ensures !IsSpace(w[i]) {
      CharactersAreTheirCodes(w[i], w[i]);
    }
    if rest != "" {
      CharactersAreTheirCodes(rest[0], rest[0]);
    }
    WordEndOf(w, rest);
    assert (w + rest)[..|w|] == w && (w + rest)[|w|..] == rest && (w + rest)[0] == w[0];
  }

  /** Splitting recovers the words from any blank stretches around and between them. */
  lemma {:induction false} SplitOfSpread(gaps: seq<string>, words: seq<string>)
    requires |gaps| == |words| + 1 && Separates(gaps)
    requires forall i :: 0 <= i < |words| ==> Solid(words[i])
    ensures Split(Spread(gaps, words)) == words
    decreases |words|
  {
    if words == [] {
      SplitSkipsBlanks(gaps[0], "");
      assert gaps[0] + "" == gaps[0];
    } else {
      var rest := Spread(gaps[1..], words[1..]);
      if |words| > 1 {
        assert rest[0] == gaps[1][0] && BlankCode(gaps[1][0] as int);
      } else {
        assert rest == gaps[1];
      }
      assert gaps[0] + words[0] + rest == gaps[0] + (words[0] + rest);
      SplitSkipsBlanks(gaps[0], words[0] + rest);
      SplitTakesWord(words[0], rest);
      SplitOfSpread(gaps[1..], words[1..]);
      assert [words[0]] + words[1..] == words;
    }
  }

  /** Every text is words spread by blanks: the words that `Split` returns. */
  lemma {:induction false} SpreadOfSplit(s: string) returns (gaps: seq<string>)
    ensures |gaps| == |Split(s)| + 1 && Separates(gaps) && Spread(gaps, Split(s)) == s
    ensures forall i :: 0 <= i < |Split(s)| ==> Solid(Split(s)[i])
    decreases |s|, 1
  {
    if s == "" {
      gaps := [""];
    } else {
      CharactersAreTheirCodes(s[0], s[0]);
      if IsSpace(s[0]) {
        gaps := SpreadOfSplit(s[1..]);
        gaps := WidenFirst(s[0], gaps, Split(s[1..]));
        assert [s[0]] + s[1..] == s;
      } else {
        gaps := SpreadOfRest(s, WordEnd(s));
      }
    }
  }

  lemma WidenFirst(c: char, gaps: seq<string>, words: seq<string>) returns (wider: seq<string>)
    requires |gaps| == |words| + 1 && Separates(gaps) && BlankCode(c as int)
    ensures |wider| == |words| + 1 && Separates(wider) && Spread(wider, words) == [c] + Spread(gaps, words)
  {
    wider := [[c] + gaps[0]] + gaps[1..];
    if words != [] {
      assert wider[1..] == gaps[1..];
      assert [c] + gaps[0] + words[0] + Spread(gaps[1..], words[1..])
          == [c] + (gaps[0] + words[0] + Spread(gaps[1..], words[1..]));
    }
  }

  lemma {:induction false} SpreadOfRest(s: string, n: nat) returns (gaps: seq<string>)
    requires s != "" && !IsSpace(s[0]) && n == WordEnd(s)
    ensures |gaps| == |Split(s)| + 1 && Separates(gaps) && Spread(gaps, Split(s)) == s
    ensures forall i :: 0 <= i < |Split(s)| ==> Solid(Split(s)[i])
    decreases |s|, 0
  {
    var w, rest := s[..n], s[n..];
    forall i | 0 <= i < |w| ensures !BlankCode(w[i] as int) {
      CharactersAreTheirCodes(w[i], w[i]);
    }
    gaps := SpreadOfSplit(rest);
    if rest != "" {
      CharactersAreTheirCodes(rest[0], rest[0]);
    }
    assert |Split(rest)| > 0 ==> Solid(Split(rest)[0]);
    var all := [""] + gaps;
    assert all[1..] == gaps && Split(s) == [w] + Split(rest) && Split(s)[1..] == Split(rest);
    assert w + rest == s;
    gaps := all;
  }

  /** `NormalizeText`: the words in small letters, one blank between them. */
  lemma NormalizeTextOfSpread(gaps: seq<string>, words: seq<string>, low: seq<string>)
    requires |gaps| == |words| + 1 == |low| + 1 && Separates(gaps)
    requires forall i :: 0 <= i < |words| ==> Solid(words[i]) && low[i] == Lower(words[i])
    ensures WordsOf(Some(Spread(gaps, words))) == low
    ensures NormalizeText(Some(Spread(gaps, words))) == Spread(SingleBlanks(|words|), low)
  {
    LowerOfSpread(gaps, words, low);
    forall i | 0 <= i < |low| ensures Solid(low[i]) {
      assert Solid(words[i]);
      forall k | 0 <= k < |low[i]| ensures !BlankCode(low[i][k] as int) {
        CharactersAreTheirCodes(words[i][k], words[i][k]);
      }
    }
    SplitOfSpread(gaps, low);
    NormalizeTextJoinsWords(Some(Spread(gaps, words)));
    JoinIsSpread(low);
  }

  /** Nothing at the ends, one blank between. */
  function SingleBlanks(n: nat): seq<string> {
    seq(n + 1, i requires 0 <= i <= n => if i == 0 || i == n then "" else " ")
  }

  lemma {:induction false} JoinIsSpread(words: seq<string>)
    ensures Join(words) == Spread(SingleBlanks(|words|), words)
  {
    if words == [] {
    } else {
      JoinTail(words);
    }
  }

  /** The words after the first, each behind a blank. */
  lemma {:induction false} JoinTail(words: seq<string>)
    requires words != []
    ensures Join(words) == words[0] + Spread(SingleBlanks(|words|)[1..], words[1..])
    decreases |words|
  {
    var gaps := SingleBlanks(|words|);
    if |words| > 1 {
      JoinTail(words[1..]);
      assert SingleBlanks(|words| - 1)[1..] == gaps[2..];
      assert gaps[1..][1..] == gaps[2..] && words[1..][1..] == words[2..];
      assert gaps[1] == " ";
    }
  }

  lemma {:induction false} LowerOfSpread(gaps: seq<string>, words: seq<string>, low: seq<string>)
    requires |gaps| == |words| + 1 == |low| + 1 && Separates(gaps)
    requires forall i :: 0 <= i < |words| ==> low[i] == Lower(words[i])
    ensures Lower(Spread(gaps, words)) == Spread(gaps, low)
    decreases |words|
  {
    forall i, k | 0 <= i < |gaps| && 0 <= k < |gaps[i]| ensures LowerChar(gaps[i][k]) == gaps[i][k] {
      CharactersAreTheirCodes(gaps[i][k], gaps[i][k]);
    }
    if words == [] {
      assert Lower(gaps[0]) == gaps[0];
    } else {
      LowerOfSpread(gaps[1..], words[1..], low[1..]);
      var rest := Spread(gaps[1..], words[1..]);
      assert Lower(gaps[0] + words[0] + rest) == Lower(gaps[0]) + Lower(words[0]) + Lower(rest);
      assert Lower(gaps[0]) == gaps[0];
    }
  }

  /** Two codes agree exactly when the letters and digits do, up to case. */
  lemma CodesAgree(a: Option<string>, b: Option<string>)
    ensures NormalizeCode(a) == NormalizeCode(b) <==> SameLetters(AlnumOf(a), AlnumOf(b))
    ensures NormalizeCode(a) == "" <==> AlnumOf(a) == ""
  {
    if a.Some? {
      CodeIsUpperAlnum(a.value);
    }
    if b.Some? {
      CodeIsUpperAlnum(b.value);
    }
    UppersAgree(AlnumOf(a), AlnumOf(b));
  }

  /** The letters and digits of an identifier, by their codes. */
  function AlnumOf(value: Option<string>): string {
    if value.None? then "" else Alnums(value.value)
  }

  function Alnums(s: string): string {
    if s == "" then ""
    else
      var n := s[0] as int;
      (if 48 <= n <= 57 || 65 <= n <= 90 || 97 <= n <= 122 then [s[0]] else "") + Alnums(s[1..])
  }

  lemma UpperOfConcat(x: string, y: string)
    ensures Upper(x + y) == Upper(x) + Upper(y)
  {
  }

  lemma {:induction false} CodeIsUpperAlnum(s: string)
    ensures Code(s) == Upper(Alnums(s))
  {
    if s != "" {
      var c := s[0];
      CharactersAreTheirCodes(c, c);
      CharactersAreTheirCodes(UpperChar(c), c);
      var kept := if IsAlnum(c) then [c] else "";
      assert Alnums(s) == kept + Alnums(s[1..]);
      assert Code(s) == Upper(kept) + Code(s[1..]) by {
        assert Upper([c]) == [UpperChar(c)] && Upper("") == "";
      }
      UpperOfConcat(kept, Alnums(s[1..]));
      CodeIsUpperAlnum(s[1..]);
    }
  }

  lemma UppersAgree(x: string, y: string)
    ensures Upper(x) == Upper(y) <==> SameLetters(x, y)
  {
    if SameLetters(x, y) {
      forall n | 0 <= n < |x| ensures Upper(x)[n] == Upper(y)[n] {
        CharactersAreTheirCodes(x[n], y[n]);
      }
    }
    if Upper(x) == Upper(y) {
      forall n | 0 <= n < |x| ensures SameLetter(x[n] as int, y[n] as int) {
        assert Upper(x)[n] == Upper(y)[n];
        CharactersAreTheirCodes(x[n], y[n]);
      }
    }
  }
}
