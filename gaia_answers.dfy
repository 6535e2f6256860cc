/** GAIA answer handling: normalisation of free-text answers, the comma
    clean-up inside numbers, the exact / partial match decision and its score,
    and the extraction of the answer from an agent's response. */
module GaiaAnswers {
  import opened Wrappers
  import opened Text
  import opened Tally

  // ---------------------------------------------------------------------------
  // removeNumberCommas

  /** `(\d),(\d{3})` matches at position `i`. */
  predicate CommaMatchAt(s: string, i: nat)
  {
    i + 5 <= |s| && IsDigit(s[i]) && s[i + 1] == ',' && IsDigit(s[i + 2]) && IsDigit(s[i + 3]) && IsDigit(s[i + 4])
  }

  /** `re.MatchString`: the pattern matches somewhere in `s`. */
  predicate HasNumberComma(s: string)
    decreases |s|
  {
    |s| >= 5 && (CommaMatchAt(s, 0) || HasNumberComma(s[1..]))
  }

  /** The recursive test agrees with "some position matches". */
  lemma {:induction false} NumberCommaAt(s: string)
    ensures HasNumberComma(s) <==> exists i: nat :: CommaMatchAt(s, i)
    decreases |s|
  {
    if |s| >= 5 {
      NumberCommaAt(s[1..]);
      if HasNumberComma(s) && !CommaMatchAt(s, 0) {
        var i: nat :| CommaMatchAt(s[1..], i);
        assert CommaMatchAt(s, i + 1);
      }
      if !HasNumberComma(s) {
        forall i: nat ensures !CommaMatchAt(s, i) {
          if i > 0 {
            assert !CommaMatchAt(s[1..], i - 1);
          }
        }
      }
    } else {
      forall i: nat ensures !CommaMatchAt(s, i) { }
    }
  }

  /** One `re.ReplaceAllString(s, "$1$2")`: the leftmost non-overlapping
      matches, scanning on after the end of each, each losing its comma. */
  function CommaPass(s: string): (r: string)
    ensures |r| <= |s|
    ensures CharsWithin(r, s)
    decreases |s|
  {
    if |s| < 5 then s
    else if CommaMatchAt(s, 0) then
      var rest := CommaPass(s[5..]);
      assert CharsWithin(rest, s) by {
        forall x | x in rest ensures x in s { assert x in s[5..]; }
      }
      assert CharsWithin(s[2..5], s) by { SliceCharsWithin(s, 2, 5); }
      [s[0]] + s[2..5] + rest
    else
      var rest := CommaPass(s[1..]);
      assert CharsWithin(rest, s) by {
        forall x | x in rest ensures x in s { assert x in s[1..]; }
      }
      [s[0]] + rest
  }

  /** A pass over a string that matches removes at least one comma. */
  lemma {:induction false} CommaPassShrinks(s: string)
    requires HasNumberComma(s)
    ensures |CommaPass(s)| < |s|
    decreases |s|
  {
    if !CommaMatchAt(s, 0) {
      CommaPassShrinks(s[1..]);
    }
  }

  /** A pass deletes commas and nothing else. */
  lemma {:induction false} CommaPassDeletesOnlyCommas(s: string)
    ensures RemoveChar(CommaPass(s), ',') == RemoveChar(s, ',')
    decreases |s|
  {
    if |s| >= 5 {
      if CommaMatchAt(s, 0) {
        CommaPassDeletesOnlyCommas(s[5..]);
        var rest := CommaPass(s[5..]);
        assert s == [s[0]] + [s[1]] + s[2..5] + s[5..];
        RemoveCharConcat([s[0]] + [s[1]] + s[2..5], s[5..], ',');
        RemoveCharConcat([s[0]] + [s[1]], s[2..5], ',');
        RemoveCharConcat([s[0]], [s[1]], ',');
        RemoveCharConcat([s[0]] + s[2..5], rest, ',');
        RemoveCharConcat([s[0]], s[2..5], ',');
        assert RemoveChar([s[1]], ',') == [];
      } else {
        CommaPassDeletesOnlyCommas(s[1..]);
        assert s == [s[0]] + s[1..];
        RemoveCharConcat([s[0]], s[1..], ',');
        RemoveCharConcat([s[0]], CommaPass(s[1..]), ',');
      }
    }
  }

  /** What `removeNumberCommas` computes: passes repeated until no match is
      left. */
  function StripCommas(s: string): string
    decreases |s|
  {
    if HasNumberComma(s) then
      CommaPassShrinks(s);
      StripCommas(CommaPass(s))
    else s
  }

  /** `removeNumberCommas`: the loop ends, leaves no digit-comma-three-digit
      run, keeps every other character in order and deletes only commas. */
  method RemoveNumberCommas(s: string) returns (r: string)
    ensures r == StripCommas(s)
    ensures !HasNumberComma(r)
    ensures RemoveChar(r, ',') == RemoveChar(s, ',')
    ensures |r| <= |s| && CharsWithin(r, s)
  {
    r := s;
    while HasNumberComma(r)
      invariant StripCommas(r) == StripCommas(s)
      invariant RemoveChar(r, ',') == RemoveChar(s, ',')
      invariant |r| <= |s| && CharsWithin(r, s)
      decreases |r|
    {
      CommaPassShrinks(r);
      CommaPassDeletesOnlyCommas(r);
      r := CommaPass(r);
    }
  }

  /** The function the loop computes shares the loop's guarantees. */
  lemma {:induction false} StripCommasProperties(s: string)
    ensures !HasNumberComma(StripCommas(s))
    ensures RemoveChar(StripCommas(s), ',') == RemoveChar(s, ',')
    ensures CharsWithin(StripCommas(s), s)
    decreases |s|
  {
    if HasNumberComma(s) {
      CommaPassShrinks(s);
      CommaPassDeletesOnlyCommas(s);
      StripCommasProperties(CommaPass(s));
    }
  }

  /** The documented cases: `1,000,000` loses both commas (the second only on
      the second pass), `1,23` and `123` stay, and the unanchored pattern also
      rewrites `1,2345`. */
  lemma StripCommasFixtures()
    ensures StripCommas("1,000,000") == "1000000"
    ensures StripCommas("1,23") == "1,23"
    ensures StripCommas("123") == "123"
    ensures StripCommas("1,2345") == "12345"
  {
    StripCommasMillion();
    StripCommasUnanchored();
  }

  /** `1,000,000` takes two passes. */
  lemma StripCommasMillion()
    ensures StripCommas("1,000,000") == "1000000"
  {
    assert CommaMatchAt("1,000,000", 0);
    assert CommaPass("1,000,000") == "1000,000";
    SecondPassMillion();
    NoCommaNoMatch("1000000");
  }

  /** The second pass over `1,000,000` finds the remaining comma. */
  lemma SecondPassMillion()
    ensures HasNumberComma("1000,000")
    ensures CommaPass("1000,000") == "1000000"
  {
    assert CommaMatchAt("1000,000", 3);
    NumberCommaAt("1000,000");
    assert CommaPass("0,000") == "0000";
    assert CommaPass("00,000") == "00000";
    assert CommaPass("000,000") == "000000";
  }

  /** The pattern is not anchored: `1,2345` matches at its start. */
  lemma StripCommasUnanchored()
    ensures StripCommas("1,2345") == "12345"
  {
    assert CommaPass("1,2345") == "12345";
    assert !HasNumberComma("12345");
  }

  // ---------------------------------------------------------------------------
  // normalizeAnswer

  /** The articles tried, in order. */
  const Articles: seq<string> := ["the ", "a ", "an "]

  /** The currency and percent symbols deleted. */
  const Symbols: string := "$%¥€£"

  /** The first article of `articles` that `s` starts with, removed; `s` when
      none does. */
  function StripArticle(s: string, articles: seq<string>): string
  {
    if articles == [] then s
    else if HasPrefix(s, articles[0]) then s[|articles[0]|..]
    else StripArticle(s, articles[1..])
  }

  /** The five `strings.ReplaceAll` calls. */
  function RemoveSymbols(s: string): string
  {
    RemoveChar(RemoveChar(RemoveChar(RemoveChar(RemoveChar(s, '$'), '%'), '¥'), '€'), '£')
  }

  /** The normal form of an answer. */
  function Normalize(answer: string): string
  {
    var lowered := ToLower(TrimSpace(answer));
    NormalizeBare(TrimRightPunct(StripArticle(lowered, Articles)))
  }

  /** The last three steps: symbols, number commas, white space. */
  function NormalizeBare(bare: string): string
  {
    Join(Fields(StripCommas(RemoveSymbols(bare))), " ")
  }

  /** `normalizeAnswer`, step by step. */
  method NormalizeAnswer(answer: string) returns (r: string)
    ensures r == Normalize(answer)
  {
    var lowered := ToLower(TrimSpace(answer));
    r := lowered;
    var i := 0;
    while i < |Articles|
      invariant 0 <= i <= |Articles|
      invariant r == lowered
      invariant StripArticle(lowered, Articles[i..]) == StripArticle(lowered, Articles)
    {
      assert Articles[i..][1..] == Articles[i + 1..];
      if HasPrefix(r, Articles[i]) {
        r := r[|Articles[i]|..];
        break;
      }
      i := i + 1;
    }
    assert r == StripArticle(lowered, Articles);
    r := TrimRightPunct(r);
    r := RemoveChar(r, '$');
    r := RemoveChar(r, '%');
    r := RemoveChar(r, '¥');
    r := RemoveChar(r, '€');
    r := RemoveChar(r, '£');
    r := RemoveNumberCommas(r);
    r := Join(Fields(r), " ");
  }

  /** At most one article goes, and only from the front: the result is a
      suffix of the input, shorter by the length of an article when it
      differs. */
  lemma {:induction false} StripArticleRemovesOne(s: string, articles: seq<string>)
    ensures var r := StripArticle(s, articles);
      |r| <= |s| && r == s[|s| - |r|..]
    ensures var r := StripArticle(s, articles);
      r != s ==> exists k :: 0 <= k < |articles| && HasPrefix(s, articles[k]) && r == s[|articles[k]|..]
    decreases |articles|
  {
    if articles != [] && !HasPrefix(s, articles[0]) {
      StripArticleRemovesOne(s, articles[1..]);
      var r := StripArticle(s, articles);
      if r != s {
        var k :| 0 <= k < |articles[1..]| && HasPrefix(s, articles[1..][k]) && r == s[|articles[1..][k]|..];
        assert articles[k + 1] == articles[1..][k];
      }
    }
  }

  /** The normal form is lower-case, holds none of `$ % ¥ € £`, and has white
      space only as single spaces between words. */
  lemma NormalizeProperties(answer: string)
    ensures forall c :: c in Normalize(answer) ==> ToLowerChar(c) == c && c !in Symbols
    ensures SingleSpaced(Normalize(answer))
  {
    var lowered := ToLower(TrimSpace(answer));
    var bare := TrimRightPunct(StripArticle(lowered, Articles));
    LoweredPrefix(lowered);
    LowerCharsLower(TrimSpace(answer));
    NormalizeBareProperties(bare);
    var r := NormalizeBare(bare);
    assert r == Normalize(answer);
    forall c | c in r ensures ToLowerChar(c) == c && c !in Symbols {
      if c != ' ' {
        assert c in bare;
      }
    }
  }

  /** Article and trailing punctuation removal keep only characters of the
      lowered answer. */
  lemma LoweredPrefix(lowered: string)
    ensures CharsWithin(TrimRightPunct(StripArticle(lowered, Articles)), lowered)
  {
    var stripped := StripArticle(lowered, Articles);
    var bare := TrimRightPunct(stripped);
    StripArticleRemovesOne(lowered, Articles);
    SliceCharsWithin(lowered, |lowered| - |stripped|, |lowered|);
    SliceCharsWithin(stripped, 0, |bare|);
  }

  /** The last three steps leave single spaces and otherwise characters of
      their input that are not symbols. */
  lemma NormalizeBareProperties(bare: string)
    ensures forall c :: c in NormalizeBare(bare) ==> c == ' ' || (c in bare && c !in Symbols)
    ensures SingleSpaced(NormalizeBare(bare))
  {
    var plain := RemoveSymbols(bare);
    var e := StripCommas(plain);
    RemoveSymbolsChars(bare);
    StripCommasProperties(plain);
    CollapseSpaces(e);
    forall c | c in NormalizeBare(bare) ensures c == ' ' || (c in bare && c !in Symbols) {
      if c != ' ' {
        assert c in e;
        assert c in plain;
      }
    }
  }


  /** Every character of a lower-cased string is its own lower case. */
  lemma LowerCharsLower(s: string)
    ensures forall c :: c in ToLower(s) ==> ToLowerChar(c) == c
  {
    forall c | c in ToLower(s) ensures ToLowerChar(c) == c {
      var i :| 0 <= i < |s| && ToLower(s)[i] == c;
    }
  }

  /** Removing the symbols keeps other characters only. */
  lemma RemoveSymbolsChars(s: string)
    ensures forall c :: c in RemoveSymbols(s) ==> c in s && c !in Symbols
  {
    var s1 := RemoveChar(s, '$');
    var s2 := RemoveChar(s1, '%');
    var s3 := RemoveChar(s2, '¥');
    var s4 := RemoveChar(s3, '€');
    forall c | c in RemoveSymbols(s) ensures c in s && c !in Symbols {
      assert c in s4 && c != '£';
      assert c in s3 && c != '€';
      assert c in s2 && c != '¥';
      assert c in s1 && c != '%';
      assert c != '$';
    }
  }


  /** A string without commas has no number comma. */
  lemma {:induction false} NoCommaNoMatch(s: string)
    requires ',' !in s
    ensures !HasNumberComma(s)
    decreases |s|
  {
    if |s| >= 5 {
      assert s[1] in s;
      assert ',' !in s[1..];
      NoCommaNoMatch(s[1..]);
    }
  }

  /** A character every normalisation step keeps as it is inside a word. */
  predicate PlainChar(c: char)
  {
    ToLowerChar(c) == c && c !in Symbols && c != ',' && !IsSpace(c)
  }

  /** Every character is plain, checked one by one. */
  predicate PlainChars(w: string)
    decreases |w|
  {
    w == [] || (PlainChar(w[0]) && PlainChars(w[1..]))
  }

  lemma {:induction false} PlainCharsEach(w: string)
    requires PlainChars(w)
    ensures forall i :: 0 <= i < |w| ==> PlainChar(w[i])
    decreases |w|
  {
    if w != [] {
      PlainCharsEach(w[1..]);
      forall i | 0 < i < |w| ensures PlainChar(w[i]) { assert w[i] == w[1..][i - 1]; }
    }
  }

  /** No article is stripped from a string without spaces. */
  lemma {:induction false} StripArticleNoSpace(s: string, articles: seq<string>)
    requires ' ' !in s
    requires forall k :: 0 <= k < |articles| ==> ' ' in articles[k]
    ensures StripArticle(s, articles) == s
    decreases |articles|
  {
    if articles != [] {
      StripArticleNoSpace(s, articles[1..]);
    }
  }

  /** The last steps keep a word of plain characters once the symbols are gone. */
  lemma NormalizeBareWord(s: string, w: string)
    requires RemoveSymbols(s) == w && w != [] && PlainChars(w)
    ensures NormalizeBare(s) == w
  {
    PlainCharsEach(w);
    assert forall c :: c in w ==> PlainChar(c);
    assert IsWord(w);
    NoCommaNoMatch(w);
    FieldsOfWord(w);
  }

  /** `Normalize` is its five steps: a value for each step gives the normal
      form. */
  lemma NormalizeSteps(answer: string, lowered: string, stripped: string, bare: string, r: string)
    requires ToLower(TrimSpace(answer)) == lowered
    requires StripArticle(lowered, Articles) == stripped
    requires TrimRightPunct(stripped) == bare
    requires NormalizeBare(bare) == r
    ensures Normalize(answer) == r
  {
  }

  /** A word of plain characters is its own trimmed, lower-case form. */
  lemma PlainWordLowered(w: string)
    requires PlainChars(w)
    ensures ToLower(TrimSpace(w)) == w
  {
    PlainCharsEach(w);
    TrimSpaceUnchanged(w);
  }

  /** A word of plain characters starts with no article. */
  lemma PlainWordNoArticle(w: string)
    requires PlainChars(w)
    ensures StripArticle(w, Articles) == w
  {
    PlainCharsEach(w);
    assert ' ' !in w;
    assert Articles[0][3] == ' ' && Articles[1][1] == ' ' && Articles[2][2] == ' ';
    StripArticleNoSpace(w, Articles);
  }

  /** A word of plain characters goes through the last steps unchanged. */
  lemma PlainWordBare(w: string)
    requires w != [] && PlainChars(w)
    ensures NormalizeBare(w) == w
  {
    PlainCharsEach(w);
    assert forall c :: c in w ==> PlainChar(c);
    RemoveCharAbsent(w, '$');
    RemoveCharAbsent(w, '%');
    RemoveCharAbsent(w, '¥');
    RemoveCharAbsent(w, '€');
    RemoveCharAbsent(w, '£');
    NormalizeBareWord(w, w);
  }

  /** Normalising a word of plain characters that does not end in punctuation
      gives the word back. */
  lemma NormalizeWord(w: string)
    requires w != [] && PlainChars(w) && !IsPunct(w[|w| - 1])
    ensures Normalize(w) == w
  {
    PlainWordLowered(w);
    PlainWordNoArticle(w);
    PlainWordBare(w);
    NormalizeSteps(w, w, w, w, w);
  }

  /** An article then a plain word has no white space to trim. */
  lemma ArticleWordTrimmed(k: nat, w: string)
    requires k < |Articles|
    requires w != [] && PlainChars(w)
    ensures TrimSpace(Articles[k] + w) == Articles[k] + w
  {
    var a := Articles[k];
    if k == 0 {
      assert a == "the ";
    } else if k == 1 {
      assert a == "a ";
    } else {
      assert a == "an ";
    }
    PlainCharsEach(w);
    TrimmedEnds(a, w);
  }

  /** Two non-empty strings whose outer ends are not white space join into
      a string with nothing to trim. */
  lemma TrimmedEnds(a: string, w: string)
    requires a != [] && !IsSpace(a[0])
    requires w != [] && !IsSpace(w[|w| - 1])
    ensures TrimSpace(a + w) == a + w
  {
    var s := a + w;
    assert s[0] == a[0] && s[|s| - 1] == w[|w| - 1];
    TrimSpaceUnchanged(s);
  }

  /** An article then a plain word is already lower-case. */
  lemma ArticleWordLowerCase(k: nat, w: string)
    requires k < |Articles|
    requires PlainChars(w)
    ensures ToLower(Articles[k] + w) == Articles[k] + w
  {
    var a := Articles[k];
    if k == 0 {
      assert a == "the " && ToLower(a) == a;
    } else if k == 1 {
      assert a == "a " && ToLower(a) == a;
    } else {
      assert a == "an " && ToLower(a) == a;
    }
    PlainCharsEach(w);
    ToLowerConcat(a, w);
    ToLowerFixed(w);
  }

  /** Of an article then a plain word, the article is stripped. */
  lemma ArticleWordStripped(k: nat, w: string)
    requires k < |Articles|
    ensures StripArticle(Articles[k] + w, Articles) == w
  {
    var s := Articles[k] + w;
    var a := Articles[k];
    assert s[..|a|] == a && s[|a|..] == w;
    assert Articles[1..] == ["a ", "an "] && Articles[1..][1..] == ["an "];
    if k == 0 {
      assert HasPrefix(s, Articles[0]);
    } else {
      assert !HasPrefix(s, Articles[0]) by { assert s[0] != 't'; }
      assert StripArticle(s, Articles) == StripArticle(s, Articles[1..]);
      if k == 1 {
        assert HasPrefix(s, Articles[1..][0]);
      } else {
        assert !HasPrefix(s, Articles[1..][0]) by { assert s[1] != ' '; }
        assert StripArticle(s, Articles[1..]) == StripArticle(s, Articles[1..][1..]);
        assert HasPrefix(s, Articles[1..][1..][0]);
      }
    }
  }

  /** A leading article followed by a plain word: the article goes. */
  lemma NormalizeArticleWord(k: nat, w: string)
    requires k < |Articles|
    requires w != [] && PlainChars(w) && !IsPunct(w[|w| - 1])
    ensures Normalize(Articles[k] + w) == w
  {
    ArticleWordTrimmed(k, w);
    ArticleWordLowerCase(k, w);
    ArticleWordStripped(k, w);
    PlainWordBare(w);
    NormalizeSteps(Articles[k] + w, Articles[k] + w, w, w, w);
  }

  /** `RemoveSymbols` works character by character. */
  lemma RemoveSymbolsConcat(a: string, b: string)
    ensures RemoveSymbols(a + b) == RemoveSymbols(a) + RemoveSymbols(b)
  {
    var x1 := RemoveChar(a, '$');
    var y1 := RemoveChar(b, '$');
    RemoveCharConcat(a, b, '$');
    var x2 := RemoveChar(x1, '%');
    var y2 := RemoveChar(y1, '%');
    RemoveCharConcat(x1, y1, '%');
    var x3 := RemoveChar(x2, '¥');
    var y3 := RemoveChar(y2, '¥');
    RemoveCharConcat(x2, y2, '¥');
    var x4 := RemoveChar(x3, '€');
    var y4 := RemoveChar(y3, '€');
    RemoveCharConcat(x3, y3, '€');
    RemoveCharConcat(x4, y4, '£');
  }

  /** A symbol then a plain word has no white space to trim. */
  lemma SymbolWordTrimmed(c: char, w: string)
    requires c in Symbols
    requires w != [] && PlainChars(w)
    ensures TrimSpace([c] + w) == [c] + w
  {
    var s := [c] + w;
    PlainCharsEach(w);
    assert s[|s| - 1] == w[|w| - 1];
    TrimSpaceUnchanged(s);
  }

  /** A symbol then a plain word is already lower-case and starts with no
      article. */
  lemma SymbolWordKept(c: char, w: string)
    requires c in Symbols
    requires PlainChars(w)
    ensures ToLower([c] + w) == [c] + w
    ensures StripArticle([c] + w, Articles) == [c] + w
  {
    var s := [c] + w;
    PlainCharsEach(w);
    ToLowerConcat([c], w);
    ToLowerFixed(w);
    assert ' ' !in s by { assert forall i :: 0 < i < |s| ==> s[i] == w[i - 1]; }
    assert Articles[0][3] == ' ' && Articles[1][1] == ' ' && Articles[2][2] == ' ';
    StripArticleNoSpace(s, Articles);
  }

  /** A symbol then a plain word loses the symbol in the last steps. */
  lemma SymbolWordBare(c: char, w: string)
    requires c in Symbols
    requires w != [] && PlainChars(w)
    ensures NormalizeBare([c] + w) == w
  {
    PlainCharsEach(w);
    RemoveSymbolsConcat([c], w);
    SymbolRemoved(c);
    assert forall x :: x in w ==> PlainChar(x);
    RemoveCharAbsent(w, '$');
    RemoveCharAbsent(w, '%');
    RemoveCharAbsent(w, '¥');
    RemoveCharAbsent(w, '€');
    RemoveCharAbsent(w, '£');
    NormalizeBareWord([c] + w, w);
  }

  /** Each of the five symbols alone is removed entirely. */
  lemma SymbolRemoved(c: char)
    requires c in Symbols
    ensures RemoveSymbols([c]) == []
  {
    if c == '$' {
      assert RemoveSymbols("$") == [];
    } else if c == '%' {
      assert RemoveSymbols("%") == [];
    } else if c == '¥' {
      assert RemoveSymbols("¥") == [];
    } else if c == '€' {
      assert RemoveSymbols("€") == [];
    } else {
      assert c == '£';
      assert RemoveSymbols("£") == [];
    }
  }

  /** A leading currency or percent symbol followed by a plain word: the
      symbol goes. */
  lemma NormalizeSymbolWord(c: char, w: string)
    requires c in Symbols
    requires w != [] && PlainChars(w) && !IsPunct(w[|w| - 1])
    ensures Normalize([c] + w) == w
  {
    SymbolWordTrimmed(c, w);
    SymbolWordKept(c, w);
    assert TrimRightPunct([c] + w) == [c] + w by { assert ([c] + w)[|w|] == w[|w| - 1]; }
    SymbolWordBare(c, w);
    NormalizeSteps([c] + w, [c] + w, [c] + w, [c] + w, w);
  }

  /** A string without any of the symbols keeps all its characters. */
  lemma NoSymbolsKept(s: string)
    requires forall i :: 0 <= i < |s| ==> s[i] !in Symbols
    ensures RemoveSymbols(s) == s
  {
    assert '$' !in s && '%' !in s && '¥' !in s && '€' !in s && '£' !in s;
    RemoveCharAbsent(s, '$');
    RemoveCharAbsent(s, '%');
    RemoveCharAbsent(s, '¥');
    RemoveCharAbsent(s, '€');
    RemoveCharAbsent(s, '£');
  }

  /** "the " then a plain word holds no symbol to remove. */
  lemma TheWordNoSymbols(w: string)
    requires PlainChars(w)
    ensures RemoveSymbols(Articles[0] + w) == Articles[0] + w
  {
    var tw := Articles[0] + w;
    PlainCharsEach(w);
    forall i | 0 <= i < |tw| ensures tw[i] !in Symbols {
      if i >= 4 { assert tw[i] == w[i - 4]; }
    }
    NoSymbolsKept(tw);
  }

  /** "the " then a plain word has no comma to clean up. */
  lemma TheWordNoCommas(w: string)
    requires PlainChars(w)
    ensures StripCommas(Articles[0] + w) == Articles[0] + w
  {
    var tw := Articles[0] + w;
    PlainCharsEach(w);
    assert ',' !in tw by { assert forall i :: 4 <= i < |tw| ==> tw[i] == w[i - 4]; }
    NoCommaNoMatch(tw);
  }

  /** "the " then a plain word is two fields, joined back as they were. */
  lemma TheWordFields(w: string)
    requires w != [] && PlainChars(w)
    ensures Join(Fields(Articles[0] + w), " ") == Articles[0] + w
  {
    PlainCharsEach(w);
    assert IsWord("the") && IsWord(w);
    assert Articles[0] + w == "the" + " " + w;
    FieldsOfTwoWords("the", w);
    assert Join(["the", w], " ") == "the" + " " + Join([w], " ");
  }

  /** `NormalizeBare` is its three passes: a value for each gives the result. */
  lemma BareSteps(bare: string, plain: string, stripped: string, r: string)
    requires RemoveSymbols(bare) == plain
    requires StripCommas(plain) == stripped
    requires Join(Fields(stripped), " ") == r
    ensures NormalizeBare(bare) == r
  {
  }

  /** "the " then a plain word goes through the last steps unchanged: it has
      no symbol, no comma and two fields. */
  lemma TheWordBare(w: string)
    requires w != [] && PlainChars(w)
    ensures NormalizeBare(Articles[0] + w) == Articles[0] + w
  {
    var tw := Articles[0] + w;
    TheWordNoSymbols(w);
    TheWordNoCommas(w);
    TheWordFields(w);
    BareSteps(tw, tw, tw, tw);
  }

  /** "the the " then a word that does not end in white space is its own
      trimmed form. */
  lemma TheTheWordTrimmed(w: string)
    requires w != [] && !IsSpace(w[|w| - 1])
    ensures TrimSpace(Articles[0] + Articles[0] + w) == Articles[0] + Articles[0] + w
  {
    var s := Articles[0] + Articles[0] + w;
    assert s[0] == 't';
    assert s[|s| - 1] == w[|w| - 1];
    TrimSpaceUnchanged(s);
  }

  /** "the the " then a plain word is already lower-case. */
  lemma TheTheWordLowerCase(w: string)
    requires PlainChars(w)
    ensures ToLower(Articles[0] + Articles[0] + w) == Articles[0] + Articles[0] + w
  {
    var tw := Articles[0] + w;
    ArticleWordLowerCase(0, w);
    ToLowerConcat(Articles[0], tw);
    assert ToLower(Articles[0]) == Articles[0];
    assert Articles[0] + tw == Articles[0] + Articles[0] + w;
  }

  /** "the the " then a plain word is its own trimmed, lower-case form. */
  lemma TheTheWordLowered(w: string)
    requires w != [] && PlainChars(w)
    ensures ToLower(TrimSpace(Articles[0] + Articles[0] + w)) == Articles[0] + Articles[0] + w
  {
    PlainCharsEach(w);
    TheTheWordTrimmed(w);
    TheTheWordLowerCase(w);
  }

  /** "the " then a word that does not end in punctuation has none to trim. */
  lemma TheWordNoTrailingPunct(w: string)
    requires w != [] && !IsPunct(w[|w| - 1])
    ensures TrimRightPunct(Articles[0] + w) == Articles[0] + w
  {
    var tw := Articles[0] + w;
    assert tw[|tw| - 1] == w[|w| - 1];
  }

  /** Of "the the " then any word, the article pass takes the first "the ". */
  lemma TheTheWordStripped(w: string)
    ensures StripArticle(Articles[0] + Articles[0] + w, Articles) == Articles[0] + w
  {
    assert Articles[0] + Articles[0] + w == Articles[0] + (Articles[0] + w);
    ArticleWordStripped(0, Articles[0] + w);
  }

  /** Of "the the " then a plain word, only the first article goes. */
  lemma NormalizeTheTheWord(w: string)
    requires w != [] && PlainChars(w) && !IsPunct(w[|w| - 1])
    ensures Normalize(Articles[0] + Articles[0] + w) == Articles[0] + w
  {
    var tw := Articles[0] + w;
    var s := Articles[0] + Articles[0] + w;
    TheTheWordLowered(w);
    TheTheWordStripped(w);
    TheWordNoTrailingPunct(w);
    TheWordBare(w);
    NormalizeSteps(s, s, tw, tw, tw);
  }

  /** Normalisation is not idempotent: normalising "the the w" again strips
      the second article. */
  lemma NormalizeNotIdempotent(w: string)
    requires w != [] && PlainChars(w) && !IsPunct(w[|w| - 1])
    ensures Normalize(Normalize(Articles[0] + Articles[0] + w)) == w
    ensures Normalize(Normalize(Articles[0] + Articles[0] + w))
         != Normalize(Articles[0] + Articles[0] + w)
  {
    NormalizeTheTheWord(w);
    NormalizeArticleWord(0, w);
    assert |Articles[0] + w| != |w|;
  }

  // ---------------------------------------------------------------------------
  // evaluateMatch

  /** How many of `words` occur in `text`. */
  function WordsFound(text: string, words: seq<string>): (n: nat)
    ensures n <= |words|
  {
    Count(words, w => Contains(text, w))
  }

  /** At least 70% of the expected words occur in the prediction. */
  predicate CoverageMet(pred: string, words: seq<string>)
  {
    |words| > 0 && 10 * WordsFound(pred, words) >= 7 * |words|
  }

  /** The partial-match rule on normal forms: equal, one contains the other,
      or enough word coverage. */
  predicate PartialMatch(pred: string, exp: string)
  {
    pred == exp || Contains(pred, exp) || Contains(exp, pred) || CoverageMet(pred, Fields(exp))
  }

  /** `evaluateMatch`: exact exactly when the normal forms agree, partial by
      the partial-match rule, never exact without partial. */
  method EvaluateMatch(predicted: string, expected: string) returns (exact: bool, partial: bool)
    ensures exact <==> Normalize(predicted) == Normalize(expected)
    ensures partial <==> PartialMatch(Normalize(predicted), Normalize(expected))
    ensures exact ==> partial
  {
    var pred := NormalizeAnswer(predicted);
    var exp := NormalizeAnswer(expected);
    if pred == exp {
      return true, true;
    }
    if Contains(pred, exp) || Contains(exp, pred) {
      return false, true;
    }
    var words := Fields(exp);
    if |words| > 0 {
      var matched := CountFound(pred, words);
      if 10 * matched >= 7 * |words| {
        return false, true;
      }
    }
    return false, false;
  }

  /** The word loop of `evaluateMatch`: how many expected words the
      prediction contains. */
  method CountFound(pred: string, words: seq<string>) returns (matched: nat)
    ensures matched == WordsFound(pred, words)
  {
    matched := 0;
    var i := 0;
    while i < |words|
      invariant 0 <= i <= |words|
      invariant matched == WordsFound(pred, words[..i])
    {
      assert words[..i + 1][..i] == words[..i];
      if Contains(pred, words[i]) {
        matched := matched + 1;
      }
      i := i + 1;
    }
    assert words[..i] == words;
  }

  /** An empty normal form of the prediction always matches partially. */
  lemma EmptyPredictionIsPartial(exp: string)
    ensures PartialMatch("", exp)
  {
    ContainsEmpty(exp);
  }

  /** Containment either way is a partial match. */
  lemma ContainmentIsPartial(pred: string, exp: string)
    requires Contains(pred, exp) || Contains(exp, pred)
    ensures PartialMatch(pred, exp)
  {
  }

  /** Coverage counts substrings, not whole words, and needs 70%: three of
      four expected words is enough, two of three is not. */
  lemma CoverageFixtures()
    ensures CoverageMet("alpha beta gamma", ["alpha", "beta", "gamma", "delta"])
    ensures !CoverageMet("paris france", ["paris", "of", "france"])
  {
    CoverageThreeOfFour();
    CoverageTwoOfThree();
  }

  /** Three of four expected words found: 75% passes. */
  lemma CoverageThreeOfFour()
    ensures WordsFound("alpha beta gamma", ["alpha", "beta", "gamma", "delta"]) == 3
  {
    var t := "alpha beta gamma";
    var ws := ["alpha", "beta", "gamma", "delta"];
    assert OccursAt(t, "alpha", 0);
    assert OccursAt(t, "beta", 6);
    assert OccursAt(t, "gamma", 11);
    FirstCharAbsent(t, "delta");
    assert ws[..1][..0] == [] && ws[..2][..1] == ws[..1] && ws[..3][..2] == ws[..2] && ws[..4][..3] == ws[..3];
    assert WordsFound(t, ws[..1]) == 1;
    assert WordsFound(t, ws[..2]) == 2;
    assert WordsFound(t, ws[..3]) == 3;
    assert ws[..4] == ws;
  }

  /** Two of three expected words found: 67% fails. */
  lemma CoverageTwoOfThree()
    ensures WordsFound("paris france", ["paris", "of", "france"]) == 2
  {
    var u := "paris france";
    var vs := ["paris", "of", "france"];
    assert OccursAt(u, "paris", 0);
    assert OccursAt(u, "france", 6);
    FirstCharAbsent(u, "of");
    assert vs[..1][..0] == [] && vs[..2][..1] == vs[..1] && vs[..3][..2] == vs[..2];
    assert WordsFound(u, vs[..1]) == 1;
    assert WordsFound(u, vs[..2]) == 1;
    assert vs[..3] == vs;
  }

  /** The score of a match: 1.0 exact, 0.5 partial only, 0.0 otherwise. */
  function MatchScore(exact: bool, partial: bool): (score: real)
    ensures score == 1.0 <==> exact
    ensures score == 0.5 <==> !exact && partial
    ensures score == 0.0 <==> !exact && !partial
  {
    if exact then 1.0 else if partial then 0.5 else 0.0
  }

  // ---------------------------------------------------------------------------
  // extractAnswer

  /** A piece of a marker pattern: a literal matched case-insensitively, a
      `\s+` run, or the class `[：:]`. */
  datatype Token = Literal(text: string) | Spaces | ColonMark

  /** The end of `t` matched at `i`. A `\s+` takes the whole run: every token
      after one starts with a character outside `\s`, so a shorter run could
      not be followed by a match. */
  function MatchToken(s: string, i: nat, t: Token): (r: Option<nat>)
    requires i <= |s|
    ensures r.Some? ==> i < r.value <= |s|
  {
    match t
    case Literal(w) =>
      if w != [] && i + |w| <= |s| && EqualFold(s[i..i + |w|], w) then Some(i + |w|) else None
    case Spaces =>
      var n := ReSpaceRun(s[i..]);
      if n > 0 then Some(i + n) else None
    case ColonMark =>
      if i < |s| && (s[i] == ':' || s[i] == '：') then Some(i + 1) else None
  }

  /** The end of the token sequence matched from `i`. */
  function MatchTokens(s: string, i: nat, ts: seq<Token>): (r: Option<nat>)
    requires i <= |s|
    ensures r.Some? ==> i <= r.value <= |s|
    decreases |ts|
  {
    if ts == [] then Some(i)
    else
      match MatchToken(s, i, ts[0])
      case None => None
      case Some(j) => MatchTokens(s, j, ts[1..])
  }

  /** The last position in `[j, k)` that is not a newline. */
  function LastNonNewline(s: string, j: nat, k: nat): (r: Option<nat>)
    requires j <= k <= |s|
    ensures r.Some? ==> j <= r.value < k && s[r.value] != '\n'
    ensures r.Some? ==> forall p :: r.value < p < k ==> s[p] == '\n'
    ensures r.None? ==> forall p :: j <= p < k ==> s[p] == '\n'
    decreases k
  {
    if k == j then None
    else if s[k - 1] != '\n' then Some(k - 1)
    else LastNonNewline(s, j, k - 1)
  }

  /** The group of `\s*(.+?)(?:\n|$)` once the marker has matched up to `j`.
      The greedy `\s*` takes the whole white-space run, after which the lazy
      group runs to the end of the line. When the run reaches the end of the
      text, `\s*` gives back characters until the group can take one that is
      not a newline; when there is none, there is no match. */
  function Capture(s: string, j: nat): (r: Option<string>)
    requires j <= |s|
    ensures r.Some? ==> r.value != [] && '\n' !in r.value
  {
    var k := j + ReSpaceRun(s[j..]);
    if k < |s| then
      var e := match IndexOfChar(s, '\n', k) case Some(e) => e case None => |s|;
      assert s[k] != '\n' by { assert !IsReSpace(s[j..][k - j]); }
      Some(s[k..e])
    else
      match LastNonNewline(s, j, k)
      case None => None
      case Some(p) => Some([s[p]])
  }

  /** The group of the pattern matched at start position `i`, if it matches there. */
  function MatchAt(s: string, i: nat, ts: seq<Token>): Option<string>
    requires i <= |s|
  {
    match MatchTokens(s, i, ts)
    case None => None
    case Some(j) => Capture(s, j)
  }

  /** `FindStringSubmatch`: the group of the leftmost match at or after `i`. */
  function FindMatch(s: string, ts: seq<Token>, i: nat): (r: Option<string>)
    requires i <= |s|
    ensures r.Some? ==> r.value != [] && '\n' !in r.value
    decreases |s| - i
  {
    match MatchAt(s, i, ts)
    case Some(c) => Some(c)
    case None => if i == |s| then None else FindMatch(s, ts, i + 1)
  }

  /** No group is found exactly when the pattern matches at no position. */
  lemma {:induction false} FindMatchNowhere(s: string, ts: seq<Token>, i: nat)
    requires i <= |s|
    ensures FindMatch(s, ts, i).None? <==> forall p :: i <= p <= |s| ==> MatchAt(s, p, ts).None?
    decreases |s| - i
  {
    if MatchAt(s, i, ts).None? && i < |s| {
      FindMatchNowhere(s, ts, i + 1);
    }
  }

  /** The group found is that of the leftmost position `p` where the pattern
      matches. */
  lemma {:induction false} FindMatchLeftmost(s: string, ts: seq<Token>, i: nat) returns (p: nat)
    requires i <= |s| && FindMatch(s, ts, i).Some?
    ensures i <= p <= |s| && MatchAt(s, p, ts) == FindMatch(s, ts, i)
    ensures NoMatchBetween(s, ts, i, p)
    decreases |s| - i
  {
    if MatchAt(s, i, ts).Some? {
      return i;
    }
    assert i < |s| && FindMatch(s, ts, i) == FindMatch(s, ts, i + 1);
    p := FindMatchLeftmost(s, ts, i + 1);
    NoMatchExtended(s, ts, i, p);
  }

  /** The pattern matches at no position in `[i, p)`. */
  predicate NoMatchBetween(s: string, ts: seq<Token>, i: nat, p: nat)
    requires p <= |s|
  {
    forall q :: i <= q < p ==> MatchAt(s, q, ts).None?
  }

  lemma NoMatchExtended(s: string, ts: seq<Token>, i: nat, p: nat)
    requires i < p <= |s| && MatchAt(s, i, ts).None? && NoMatchBetween(s, ts, i + 1, p)
    ensures NoMatchBetween(s, ts, i, p)
  {
  }

  const FinalAnswerPattern: seq<Token> := [Literal("final"), Spaces, Literal("answer:")]
  const ChineseAnswerPattern: seq<Token> := [Literal("答案"), ColonMark]
  const AnswerPattern: seq<Token> := [Literal("answer"), ColonMark]
  const AnswerIsPattern: seq<Token> := [Literal("the"), Spaces, Literal("answer"), Spaces, Literal("is"), ColonMark]
  const Patterns: seq<seq<Token>> := [FinalAnswerPattern, ChineseAnswerPattern, AnswerPattern, AnswerIsPattern]

  /** The group of the first pattern that matches anywhere. */
  function FirstPatternMatch(s: string, pats: seq<seq<Token>>): (r: Option<string>)
    ensures r.Some? ==> r.value != [] && '\n' !in r.value
    decreases |pats|
  {
    if pats == [] then None
    else
      match FindMatch(s, pats[0], 0)
      case Some(c) => Some(c)
      case None => FirstPatternMatch(s, pats[1..])
  }

  /** The last line that is not blank, trimmed. */
  function LastNonBlankLine(lines: seq<string>): Option<string>
    decreases |lines|
  {
    if lines == [] then None
    else if TrimSpace(lines[|lines| - 1]) != [] then Some(TrimSpace(lines[|lines| - 1]))
    else LastNonBlankLine(lines[..|lines| - 1])
  }

  /** A non-blank line is found when there is one. */
  lemma {:induction false} LastNonBlankLineExists(lines: seq<string>, k: nat)
    requires k < |lines| && TrimSpace(lines[k]) != []
    ensures LastNonBlankLine(lines).Some?
    decreases |lines|
  {
    if TrimSpace(lines[|lines| - 1]) == [] {
      LastNonBlankLineExists(lines[..|lines| - 1], k);
    }
  }

  /** The line found is one of the lines, trimmed, and not blank. */
  lemma {:induction false} LastNonBlankLineIsLine(lines: seq<string>)
    requires LastNonBlankLine(lines).Some?
    ensures LastNonBlankLine(lines).value != []
    ensures exists k :: 0 <= k < |lines| && LastNonBlankLine(lines).value == TrimSpace(lines[k])
    decreases |lines|
  {
    if TrimSpace(lines[|lines| - 1]) == [] {
      var init := lines[..|lines| - 1];
      LastNonBlankLineIsLine(init);
      var k :| 0 <= k < |init| && LastNonBlankLine(init).value == TrimSpace(init[k]);
      assert lines[k] == init[k];
    }
  }

  /** The answer `extractAnswer` finds: "" for a blank response; otherwise the
      trimmed group of the first marker pattern that matches; otherwise the
      last non-blank line. The final fallback to the whole response cannot be
      reached, since a response that is not blank has a non-blank line. */
  function Extracted(response: string): string
  {
    var r := TrimSpace(response);
    if r == [] then ""
    else
      match FirstPatternMatch(r, Patterns)
      case Some(c) => TrimSpace(c)
      case None =>
        match LastNonBlankLine(Split(r, '\n'))
        case Some(line) => line
        case None => r
  }

  /** The backwards scan of `extractAnswer` over the lines. */
  method FindLastNonBlankLine(lines: seq<string>) returns (r: Option<string>)
    ensures r == LastNonBlankLine(lines)
  {
    var i := |lines|;
    assert lines[..i] == lines;
    while i > 0
      invariant 0 <= i <= |lines|
      invariant LastNonBlankLine(lines[..i]) == LastNonBlankLine(lines)
    {
      assert lines[..i][..i - 1] == lines[..i - 1];
      var line := TrimSpace(lines[i - 1]);
      if line != [] {
        return Some(line);
      }
      i := i - 1;
    }
    return None;
  }

  /** `extractAnswer`. */
  method ExtractAnswer(response: string) returns (answer: string)
    ensures answer == Extracted(response)
  {
    var r := TrimSpace(response);
    if r == [] {
      return "";
    }
    var found := FirstPatternMatch(r, Patterns);
    if found.Some? {
      return TrimSpace(found.value);
    }
    var last := FindLastNonBlankLine(Split(r, '\n'));
    if last.Some? {
      return last.value;
    }
    return r;
  }

  /** A response that is not blank has a non-blank line. */
  lemma NonBlankHasLine(s: string)
    requires s != [] && !IsSpace(s[0])
    ensures LastNonBlankLine(Split(s, '\n')).Some?
  {
    var lines := Split(s, '\n');
    var first := lines[0];
    assert first != [] && first[0] == s[0] by {
      match IndexOfChar(s, '\n', 0)
      case None =>
      case Some(e) => assert e > 0;
    }
    assert TrimSpace(first) != [];
    LastNonBlankLineExists(lines, 0);
  }

  /** The extracted answer is a single line without white space at either end;
      it is empty for a blank response, and not empty when no marker matched. */
  lemma ExtractedIsOneTrimmedLine(response: string)
    ensures '\n' !in Extracted(response)
    ensures Extracted(response) != [] ==>
      !IsSpace(Extracted(response)[0]) && !IsSpace(Extracted(response)[|Extracted(response)| - 1])
    ensures TrimSpace(response) == [] ==> Extracted(response) == []
    ensures FirstPatternMatch(TrimSpace(response), Patterns).None? && TrimSpace(response) != [] ==>
      Extracted(response) != []
  {
    ExtractedTrimmed(response);
    ExtractedBlank(response);
  }

  /** The answer is one line without white space at either end. */
  lemma ExtractedTrimmed(response: string)
    ensures OneTrimmedLine(Extracted(response))
  {
    var r := TrimSpace(response);
    if r != [] {
      match FirstPatternMatch(r, Patterns)
      case Some(c) =>
        MarkerGroupIsTrimmedLine(c);
        assert Extracted(response) == TrimSpace(c);
      case None =>
        FallbackIsTrimmedLine(r);
        assert Extracted(response) == LastNonBlankLine(Split(r, '\n')).value;
    }
  }

  /** The answer is empty exactly for a blank response or an empty marker
      group. */
  lemma ExtractedBlank(response: string)
    ensures TrimSpace(response) == [] ==> Extracted(response) == []
    ensures FirstPatternMatch(TrimSpace(response), Patterns).None? && TrimSpace(response) != [] ==>
      Extracted(response) != []
  {
    var r := TrimSpace(response);
    if r != [] && FirstPatternMatch(r, Patterns).None? {
      FallbackIsTrimmedLine(r);
    }
  }

  /** One line without white space at either end. */
  predicate OneTrimmedLine(e: string)
  {
    '\n' !in e && (e != [] ==> !IsSpace(e[0]) && !IsSpace(e[|e| - 1]))
  }

  /** The trimmed group of a marker is one line without white space at
      either end. */
  lemma MarkerGroupIsTrimmedLine(c: string)
    requires '\n' !in c
    ensures '\n' !in TrimSpace(c)
    ensures TrimSpace(c) != [] ==> !IsSpace(TrimSpace(c)[0]) && !IsSpace(TrimSpace(c)[|TrimSpace(c)| - 1])
  {
    TrimSpaceWithin(c);
  }

  /** The fallback of a response that is not blank is a non-empty line without
      white space at either end. */
  lemma FallbackIsTrimmedLine(r: string)
    requires r != [] && !IsSpace(r[0])
    ensures LastNonBlankLine(Split(r, '\n')).Some?
    ensures var line := LastNonBlankLine(Split(r, '\n')).value;
      line != [] && '\n' !in line && !IsSpace(line[0]) && !IsSpace(line[|line| - 1])
  {
    var lines := Split(r, '\n');
    NonBlankHasLine(r);
    LastNonBlankLineIsLine(lines);
    var k :| 0 <= k < |lines| && LastNonBlankLine(lines).value == TrimSpace(lines[k]);
    TrimSpaceWithin(lines[k]);
  }

  /** Trimming keeps a newline-free string newline-free. */
  lemma TrimSpaceWithin(s: string)
    ensures CharsWithin(TrimSpace(s), s)
  {
    SliceCharsWithin(s, LeadingSpaces(s), LeadingSpaces(s) + |TrimSpace(s)|);
  }

  /** A token that cannot match in `s` for want of a colon: `[：:]` when `s`
      has neither colon, a literal holding `:` when `s` has none. */
  predicate ColonMissing(s: string, t: Token)
  {
    (t.ColonMark? && ':' !in s && '：' !in s) || (t.Literal? && ':' in t.text && ':' !in s)
  }

  lemma ColonMissingToken(s: string, i: nat, t: Token)
    requires i <= |s| && ColonMissing(s, t)
    ensures MatchToken(s, i, t).None?
  {
    if t.ColonMark? && i < |s| {
      assert s[i] in s;
    } else if t.Literal? {
      var w := t.text;
      if i + |w| <= |s| && EqualFold(s[i..i + |w|], w) {
        var m :| 0 <= m < |w| && w[m] == ':';
        EqualFoldPointwise(s[i..i + |w|], w);
      }
    }
  }

  lemma {:induction false} ColonMissingTokens(s: string, i: nat, ts: seq<Token>, m: nat)
    requires i <= |s| && m < |ts| && ColonMissing(s, ts[m])
    ensures MatchTokens(s, i, ts).None?
    decreases |ts|
  {
    if m == 0 {
      ColonMissingToken(s, i, ts[0]);
    } else {
      match MatchToken(s, i, ts[0])
      case None =>
      case Some(j) =>
        assert ts[1..][m - 1] == ts[m];
        ColonMissingTokens(s, j, ts[1..], m - 1);
    }
  }

  /** A pattern with a token that needs a colon the text lacks matches nowhere. */
  lemma ColonMissingPattern(s: string, ts: seq<Token>, m: nat)
    requires m < |ts| && ColonMissing(s, ts[m])
    ensures FindMatch(s, ts, 0).None?
  {
    forall p | 0 <= p <= |s| ensures MatchAt(s, p, ts).None? {
      ColonMissingTokens(s, p, ts, m);
    }
    FindMatchNowhere(s, ts, 0);
  }

  /** Every marker needs a colon: a text with neither `:` nor `：` has no
      marker, and its answer is its last non-blank line. */
  lemma NoColonNoMarker(s: string)
    requires ':' !in s && '：' !in s
    ensures FirstPatternMatch(s, Patterns).None?
  {
    ColonMissingPattern(s, FinalAnswerPattern, 2);
    ColonMissingPattern(s, ChineseAnswerPattern, 1);
    ColonMissingPattern(s, AnswerPattern, 1);
    ColonMissingPattern(s, AnswerIsPattern, 5);
    var p1, p2, p3 := Patterns[1..], Patterns[2..], Patterns[3..];
    assert Patterns[0] == FinalAnswerPattern && p1[0] == ChineseAnswerPattern;
    assert p1[1..] == p2 && p2[0] == AnswerPattern && p2[1..] == p3;
    assert p3[0] == AnswerIsPattern && p3[1..] == [];
    assert FirstPatternMatch(s, Patterns) == FirstPatternMatch(s, p1);
    assert FirstPatternMatch(s, p1) == FirstPatternMatch(s, p2);
    assert FirstPatternMatch(s, p2) == FirstPatternMatch(s, p3);
    assert FirstPatternMatch(s, p3) == FirstPatternMatch(s, []);
  }

  /** With no marker in a response that is not blank, the answer is the last
      non-blank line. */
  lemma ExtractedWithoutMarker(response: string)
    requires TrimSpace(response) != []
    requires FirstPatternMatch(TrimSpace(response), Patterns).None?
    ensures LastNonBlankLine(Split(TrimSpace(response), '\n')).Some?
    ensures Extracted(response) == LastNonBlankLine(Split(TrimSpace(response), '\n')).value
  {
    FallbackIsTrimmedLine(TrimSpace(response));
  }

  /** With a marker, the answer is its group, trimmed. */
  lemma ExtractedWithMarker(response: string, c: string)
    requires TrimSpace(response) != []
    requires FirstPatternMatch(TrimSpace(response), Patterns) == Some(c)
    ensures Extracted(response) == TrimSpace(c)
  {
  }

  /** A single-line answer without white space at either end. */
  predicate TrimmedLine(a: string)
  {
    a != [] && '\n' !in a && !IsSpace(a[0]) && !IsSpace(a[|a| - 1])
  }

  /** The group of a marker that ends at `j`, when the rest of the text is
      white space of length `n`, then a trimmed line. */
  lemma CaptureLine(s: string, j: nat, n: nat, a: string)
    requires j + n <= |s| && s[j + n..] == a && TrimmedLine(a)
    requires forall k :: j <= k < j + n ==> s[k] == ' '
    ensures Capture(s, j) == Some(a)
  {
    var k := j + n;
    assert s[k] == a[0];
    ReSpaceRunIs(s[j..], n);
    forall q | k <= q < |s| ensures s[q] != '\n' {
      assert s[q] == a[q - k];
    }
    var e := IndexOfChar(s, '\n', k);
    assert e.None?;
    assert ReSpaceRun(s[j..]) == n;
    assert s[k..|s|] == a;
  }

  /** The length of a `\s` run of spaces. */
  lemma {:induction false} ReSpaceRunIs(t: string, n: nat)
    requires n < |t| && !IsReSpace(t[n])
    requires forall k :: 0 <= k < n ==> t[k] == ' '
    ensures ReSpaceRun(t) == n
    decreases n
  {
    if n > 0 {
      assert t[1..][n - 1] == t[n];
      ReSpaceRunIs(t[1..], n - 1);
    }
  }

  /** `final` matches `FINAL`. */
  lemma FinalWordToken(s: string)
    requires |s| >= 5 && s[..5] == "FINAL"
    ensures MatchToken(s, 0, Literal("final")) == Some(5)
  {
    assert s[0..5] == "FINAL";
    assert EqualFold("FINAL", "final");
  }

  /** `answer:` matches `ANSWER:`. */
  lemma AnswerWordToken(s: string, i: nat)
    requires i + 7 <= |s| && s[i..i + 7] == "ANSWER:"
    ensures MatchToken(s, i, Literal("answer:")) == Some(i + 7)
  {
    EqualFoldPointwise("ANSWER:", "answer:");
  }

  /** The single space of `FINAL ANSWER:` matches `\s+`. */
  lemma FinalSpaceToken(s: string)
    requires |s| >= 13 && s[..13] == "FINAL ANSWER:"
    ensures MatchToken(s, 5, Spaces) == Some(6)
  {
    assert s[5] == ' ' && s[6] == 'A';
    ReSpaceRunIs(s[5..], 1);
  }

  /** The three tokens of the first pattern, one after the other. */
  lemma FinalAnswerChain(s: string, i: nat, j: nat, k: nat)
    requires i <= j <= k <= |s|
    requires MatchToken(s, 0, Literal("final")) == Some(i)
    requires MatchToken(s, i, Spaces) == Some(j)
    requires MatchToken(s, j, Literal("answer:")) == Some(k)
    ensures MatchTokens(s, 0, FinalAnswerPattern) == Some(k)
  {
    var t1, t2 := FinalAnswerPattern[1..], FinalAnswerPattern[2..];
    assert t1[0] == Spaces && t1[1..] == t2 && t2[0] == Literal("answer:") && t2[1..] == [];
    assert MatchTokens(s, j, t2) == Some(k);
    assert MatchTokens(s, i, t1) == Some(k);
  }

  /** The tokens of the first pattern match `FINAL ANSWER:` up to the colon. */
  lemma FinalAnswerTokens(s: string)
    requires |s| >= 13 && s[..13] == "FINAL ANSWER:"
    ensures MatchTokens(s, 0, FinalAnswerPattern) == Some(13)
  {
    var marker := s[..13];
    assert marker[..5] == "FINAL" && marker[6..13] == "ANSWER:";
    assert s[..5] == marker[..5] && s[6..13] == marker[6..13];
    FinalWordToken(s);
    FinalSpaceToken(s);
    AnswerWordToken(s, 6);
    FinalAnswerChain(s, 5, 6, 13);
  }

  /** `FINAL ANSWER: x` matches the first pattern, whatever the letter case. */
  lemma FinalAnswerMatch(a: string)
    requires TrimmedLine(a)
    ensures FirstPatternMatch("FINAL ANSWER: " + a, Patterns) == Some(a)
  {
    var s := "FINAL ANSWER: " + a;
    assert s[..13] == "FINAL ANSWER:";
    FinalAnswerTokens(s);
    CaptureLine(s, 13, 1, a);
    assert MatchAt(s, 0, FinalAnswerPattern) == Some(a);
    assert FindMatch(s, FinalAnswerPattern, 0) == Some(a);
  }

  /** `FINAL ANSWER: x` gives `x`. */
  lemma FinalAnswerMarker(a: string)
    requires TrimmedLine(a)
    ensures Extracted("FINAL ANSWER: " + a) == a
  {
    var s := "FINAL ANSWER: " + a;
    assert s[|s| - 1] == a[|a| - 1];
    TrimSpaceUnchanged(s);
    TrimSpaceUnchanged(a);
    FinalAnswerMatch(a);
    ExtractedWithMarker(s, a);
  }

  /** `答案：x` matches the second pattern when `x` has no ASCII colon. */
  lemma ChineseAnswerMatch(a: string)
    requires TrimmedLine(a) && ':' !in a
    ensures FirstPatternMatch("答案：" + a, Patterns) == Some(a)
  {
    var s := "答案：" + a;
    assert ':' !in s by { assert forall k :: 3 <= k < |s| ==> s[k] == a[k - 3]; }
    ColonMissingPattern(s, FinalAnswerPattern, 2);
    assert s[0..2] == "答案" && EqualFold("答案", "答案");
    assert MatchToken(s, 0, Literal("答案")) == Some(2);
    assert MatchToken(s, 2, ColonMark) == Some(3);
    assert ChineseAnswerPattern[1..][1..] == [];
    assert MatchTokens(s, 0, ChineseAnswerPattern) == Some(3);
    CaptureLine(s, 3, 0, a);
    assert MatchAt(s, 0, ChineseAnswerPattern) == Some(a);
    assert Patterns[1..][0] == ChineseAnswerPattern;
  }

  /** `答案：x` gives `x`. */
  lemma ChineseAnswerMarker(a: string)
    requires TrimmedLine(a) && ':' !in a
    ensures Extracted("答案：" + a) == a
  {
    var s := "答案：" + a;
    assert s[|s| - 1] == a[|a| - 1];
    TrimSpaceUnchanged(s);
    TrimSpaceUnchanged(a);
    ChineseAnswerMatch(a);
    ExtractedWithMarker(s, a);
  }
}
