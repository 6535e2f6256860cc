/** The string and character routines of Go's `strings`, `unicode` and `regexp`
    packages that the evaluators use, over Dafny strings (sequences of Unicode
    scalar values, like Go's decoded runes). Case mapping and punctuation follow
    Go for ASCII and Latin-1. */
module Text {
  import opened Wrappers

  // ---------------------------------------------------------------------------
  // Character classes

  /** `unicode.IsSpace`: the Unicode White_Space characters Go lists. */
  predicate IsSpace(c: char)
  {
    c == '\t' || c == '\n' || c == '\U{000B}' || c == '\U{000C}' || c == '\r' || c == ' '
    || c == '\U{0085}' || c == '\U{00A0}' || c == '\U{1680}'
    || ('\U{2000}' <= c <= '\U{200A}')
    || c == '\U{2028}' || c == '\U{2029}' || c == '\U{202F}' || c == '\U{205F}' || c == '\U{3000}'
  }

  /** The regular-expression class `\s` of Go's RE2 syntax: `[\t\n\f\r ]`
      (no vertical tab, nothing outside ASCII). */
  predicate IsReSpace(c: char)
  {
    c == '\t' || c == '\n' || c == '\U{000C}' || c == '\r' || c == ' '
  }

  /** `\d` in Go's regular expressions: ASCII digits only. */
  predicate IsDigit(c: char)
  {
    '0' <= c <= '9'
  }

  /** `\w` in Go's regular expressions: `[0-9A-Za-z_]`. */
  predicate IsWordChar(c: char)
  {
    IsDigit(c) || ('a' <= c <= 'z') || ('A' <= c <= 'Z') || c == '_'
  }

  /** `unicode.IsPunct` (general category P) on ASCII, Latin-1, General
      Punctuation, CJK Symbols and Punctuation and the fullwidth forms. Note
      that `$ + < = > ^ ` | ~` are symbols, not punctuation. */
  predicate IsPunct(c: char)
  {
    c == '!' || c == '"' || c == '#' || c == '%' || c == '&' || c == '\'' || c == '('
    || c == ')' || c == '*' || c == ',' || c == '-' || c == '.' || c == '/' || c == ':'
    || c == ';' || c == '?' || c == '@' || c == '[' || c == '\\' || c == ']' || c == '_'
    || c == '{' || c == '}'
    || c == '\U{00A1}' || c == '\U{00A7}' || c == '\U{00AB}' || c == '\U{00B6}'
    || c == '\U{00B7}' || c == '\U{00BB}' || c == '\U{00BF}'
    || ('\U{2010}' <= c <= '\U{2027}') || ('\U{2030}' <= c <= '\U{2043}')
    || ('\U{2045}' <= c <= '\U{2051}') || ('\U{2053}' <= c <= '\U{205E}')
    || ('\U{3001}' <= c <= '\U{3003}') || ('\U{3008}' <= c <= '\U{3011}')
    || ('\U{3014}' <= c <= '\U{301F}') || c == '\U{3030}' || c == '\U{303D}'
    || ('\U{FF01}' <= c <= '\U{FF03}') || ('\U{FF05}' <= c <= '\U{FF0A}')
    || ('\U{FF0C}' <= c <= '\U{FF0F}') || c == '\U{FF1A}' || c == '\U{FF1B}'
    || c == '\U{FF1F}' || c == '\U{FF20}' || ('\U{FF3B}' <= c <= '\U{FF3D}')
    || c == '\U{FF3F}' || c == '\U{FF5B}' || c == '\U{FF5D}' || ('\U{FF5F}' <= c <= '\U{FF65}')
  }

  /** The capitals `unicode.ToLower` changes, within ASCII and Latin-1. */
  predicate IsCapital(c: char)
  {
    'A' <= c <= 'Z' || ('\U{00C0}' <= c <= '\U{00DE}' && c != '\U{00D7}')
  }

  /** `unicode.ToLower` on ASCII and Latin-1 capitals. */
  function ToLowerChar(c: char): (r: char)
    ensures IsSpace(r) <==> IsSpace(c)
    ensures !IsCapital(r)
    ensures r != c ==> IsCapital(c)
  {
    if IsCapital(c) then (c as int + 32) as char else c
  }

  /** `strings.ToLower`. */
  function ToLower(s: string): (r: string)
    ensures |r| == |s|
    ensures forall i :: 0 <= i < |s| ==> r[i] == ToLowerChar(s[i])
  {
    if s == [] then [] else [ToLowerChar(s[0])] + ToLower(s[1..])
  }

  /** A string that lower-casing leaves unchanged. */
  predicate IsLowerCase(s: string)
  {
    forall i :: 0 <= i < |s| ==> ToLowerChar(s[i]) == s[i]
  }

  /** Lower-casing works character by character. */
  lemma ToLowerConcat(a: string, b: string)
    ensures ToLower(a + b) == ToLower(a) + ToLower(b)
  {
    var l, r := ToLower(a + b), ToLower(a) + ToLower(b);
    forall i | 0 <= i < |l| ensures l[i] == r[i] {
      if i < |a| { assert (a + b)[i] == a[i]; } else { assert (a + b)[i] == b[i - |a|]; }
    }
  }

  /** A lower-case string is its own lower-case form. */
  lemma ToLowerFixed(s: string)
    requires IsLowerCase(s)
    ensures ToLower(s) == s
  {
  }

  /** The simple case-folding class of a character, as used by `strings.EqualFold`
      and by `(?i)` in regular expressions: two characters fold together when
      their keys agree. This covers the ASCII and Latin-1 capitals with their
      small letters, the long s (which folds with `s`), the Kelvin sign (with
      `k`) and Y with diaeresis. Other foldings Go knows (Greek, Cyrillic, the
      micro sign with mu, sharp s with its capital, the Angstrom sign with A
      ring) are not modelled: those characters fold only with themselves. */
  function FoldKey(c: char): char
  {
    if c == '\U{017F}' then 's'
    else if c == '\U{212A}' then 'k'
    else if c == '\U{0178}' then '\U{00FF}'
    else ToLowerChar(c)
  }

  /** `strings.EqualFold`, character by character. */
  predicate EqualFold(a: string, b: string)
    decreases |a|
  {
    |a| == |b| && (a == [] || (FoldKey(a[0]) == FoldKey(b[0]) && EqualFold(a[1..], b[1..])))
  }

  /** Two strings are equal up to case exactly when their characters fold
      together position by position. */
  lemma {:induction false} EqualFoldPointwise(a: string, b: string)
    ensures EqualFold(a, b) <==> |a| == |b| && forall i :: 0 <= i < |a| ==> FoldKey(a[i]) == FoldKey(b[i])
    decreases |a|
  {
    if a != [] && |a| == |b| {
      EqualFoldPointwise(a[1..], b[1..]);
      if forall i :: 0 <= i < |a| ==> FoldKey(a[i]) == FoldKey(b[i]) {
        forall i | 0 <= i < |a| - 1 ensures FoldKey(a[1..][i]) == FoldKey(b[1..][i]) {
          assert FoldKey(a[i + 1]) == FoldKey(b[i + 1]);
        }
      }
      if EqualFold(a, b) {
        forall i | 0 <= i < |a| ensures FoldKey(a[i]) == FoldKey(b[i]) {
          if i > 0 { assert a[i] == a[1..][i - 1] && b[i] == b[1..][i - 1]; }
        }
      }
    }
  }

  // ---------------------------------------------------------------------------
  // Substrings

  /** `strings.HasPrefix`. */
  predicate HasPrefix(s: string, prefix: string)
  {
    |prefix| <= |s| && s[..|prefix|] == prefix
  }

  /** `sub` occurs in `s` starting at position `i`. */
  predicate OccursAt(s: string, sub: string, i: int)
  {
    0 <= i && i + |sub| <= |s| && s[i..i + |sub|] == sub
  }

  /** `strings.Contains`. */
  predicate Contains(s: string, sub: string)
  {
    exists i :: 0 <= i <= |s| - |sub| && OccursAt(s, sub, i)
  }

  lemma ContainsItself(s: string)
    ensures Contains(s, s)
  {
    assert OccursAt(s, s, 0);
  }

  lemma ContainsEmpty(s: string)
    ensures Contains(s, "")
  {
    assert OccursAt(s, "", 0);
  }

  /** A string whose first character does not occur in `s` does not occur in it. */
  lemma FirstCharAbsent(s: string, w: string)
    requires w != [] && w[0] !in s
    ensures !Contains(s, w)
  {
  }

  /** The first occurrence of `pat` in `s` at or after `from`. */
  function IndexFrom(s: string, pat: string, from: nat): (r: Option<nat>)
    requires from <= |s|
    requires pat != []
    ensures r.Some? ==> from <= r.value && OccursAt(s, pat, r.value)
    ensures r.Some? ==> forall k :: from <= k < r.value ==> !OccursAt(s, pat, k)
    ensures r.None? ==> forall k :: from <= k ==> !OccursAt(s, pat, k)
    decreases |s| - from
  {
    if from + |pat| > |s| then None
    else if s[from..from + |pat|] == pat then Some(from)
    else IndexFrom(s, pat, from + 1)
  }

  /** The first occurrence of the character `c` in `s` at or after `from`. */
  function IndexOfChar(s: string, c: char, from: nat): (r: Option<nat>)
    requires from <= |s|
    ensures r.Some? ==> from <= r.value < |s| && s[r.value] == c
    ensures r.Some? ==> forall k :: from <= k < r.value ==> s[k] != c
    ensures r.None? ==> forall k :: from <= k < |s| ==> s[k] != c
    decreases |s| - from
  {
    if from == |s| then None
    else if s[from] == c then Some(from)
    else IndexOfChar(s, c, from + 1)
  }

  // ---------------------------------------------------------------------------
  // Trimming

  /** The number of leading `unicode.IsSpace` characters. */
  function LeadingSpaces(s: string): (n: nat)
    ensures n <= |s|
    ensures forall i :: 0 <= i < n ==> IsSpace(s[i])
    ensures n < |s| ==> !IsSpace(s[n])
  {
    if s == [] || !IsSpace(s[0]) then 0 else 1 + LeadingSpaces(s[1..])
  }

  /** The number of trailing `unicode.IsSpace` characters. */
  function TrailingSpaces(s: string): (n: nat)
    ensures n <= |s|
    ensures forall i :: |s| - n <= i < |s| ==> IsSpace(s[i])
    ensures n < |s| ==> !IsSpace(s[|s| - 1 - n])
  {
    if s == [] || !IsSpace(s[|s| - 1]) then 0 else 1 + TrailingSpaces(s[..|s| - 1])
  }

  /** `strings.TrimSpace`: the slice of `s` left after removing white space at
      both ends. */
  function TrimSpace(s: string): (r: string)
    ensures LeadingSpaces(s) + |r| <= |s| && r == s[LeadingSpaces(s)..LeadingSpaces(s) + |r|]
    ensures forall i :: 0 <= i < LeadingSpaces(s) ==> IsSpace(s[i])
    ensures forall i :: LeadingSpaces(s) + |r| <= i < |s| ==> IsSpace(s[i])
    ensures r != [] ==> !IsSpace(r[0]) && !IsSpace(r[|r| - 1])
    ensures r == [] <==> forall i :: 0 <= i < |s| ==> IsSpace(s[i])
  {
    var a := LeadingSpaces(s);
    var t := s[a..];
    t[..|t| - TrailingSpaces(t)]
  }

  /** A string without white space at either end is already trimmed. */
  lemma TrimSpaceUnchanged(s: string)
    requires s != [] ==> !IsSpace(s[0]) && !IsSpace(s[|s| - 1])
    ensures TrimSpace(s) == s
  {
    if s != [] {
      assert LeadingSpaces(s) == 0;
      assert TrailingSpaces(s) == 0;
    }
  }

  /** `strings.TrimRightFunc(s, unicode.IsPunct)`. */
  function TrimRightPunct(s: string): (r: string)
    ensures |r| <= |s| && r == s[..|r|]
    ensures forall i :: |r| <= i < |s| ==> IsPunct(s[i])
    ensures r != [] ==> !IsPunct(r[|r| - 1])
  {
    if s == [] || !IsPunct(s[|s| - 1]) then s else TrimRightPunct(s[..|s| - 1])
  }

  /** `strings.Trim(s, cutset)`: drops characters of `cutset` from both ends. */
  function TrimCutset(s: string, cutset: string): (r: string)
    ensures |r| <= |s|
    ensures r != [] ==> r[0] !in cutset && r[|r| - 1] !in cutset
    ensures forall i :: 0 <= i < |r| ==> r[i] in s
  {
    if s == [] then s
    else if s[0] in cutset then TrimCutset(s[1..], cutset)
    else if s[|s| - 1] in cutset then TrimCutset(s[..|s| - 1], cutset)
    else s
  }

  /** `strings.ReplaceAll(s, string(c), "")`: every `c` deleted, the other
      characters kept in order. */
  function RemoveChar(s: string, c: char): (r: string)
    ensures |r| <= |s|
    ensures c !in r
    ensures CharsWithin(r, s)
  {
    if s == [] then []
    else
      var rest := RemoveChar(s[1..], c);
      assert CharsWithin(rest, s) by {
        forall x | x in rest ensures x in s { assert x in s[1..]; }
      }
      if s[0] == c then rest else [s[0]] + rest
  }

  /** Deleting a character that does not occur changes nothing. */
  lemma {:induction false} RemoveCharAbsent(s: string, c: char)
    requires c !in s
    ensures RemoveChar(s, c) == s
    decreases |s|
  {
    if s != [] {
      assert c !in s[1..];
      RemoveCharAbsent(s[1..], c);
    }
  }

  /** Deleting a character distributes over concatenation. */
  lemma {:induction false} RemoveCharConcat(a: string, b: string, c: char)
    ensures RemoveChar(a + b, c) == RemoveChar(a, c) + RemoveChar(b, c)
    decreases |a|
  {
    if a == [] {
      assert a + b == b;
    } else {
      assert (a + b)[1..] == a[1..] + b;
      RemoveCharConcat(a[1..], b, c);
    }
  }

  /** `strings.Split(s, string(sep))`: the pieces between separators, at
      least one. */
  function Split(s: string, sep: char): (parts: seq<string>)
    ensures |parts| >= 1
    ensures forall k :: 0 <= k < |parts| ==> sep !in parts[k]
    decreases |s|
  {
    match IndexOfChar(s, sep, 0)
    case None => [s]
    case Some(e) =>
      assert sep !in s[..e];
      [s[..e]] + Split(s[e + 1..], sep)
  }

  /** Joining the pieces with the separator gives the string back. */
  lemma {:induction false} SplitJoin(s: string, sep: char)
    ensures Join(Split(s, sep), [sep]) == s
    decreases |s|
  {
    match IndexOfChar(s, sep, 0)
    case None =>
    case Some(e) =>
      SplitJoin(s[e + 1..], sep);
      assert s == s[..e] + [sep] + s[e + 1..];
  }

  // ---------------------------------------------------------------------------
  // Fields and Join

  /** The length of the longest prefix without white space. */
  function WordLength(s: string): (n: nat)
    ensures n <= |s|
    ensures forall i :: 0 <= i < n ==> !IsSpace(s[i])
    ensures n < |s| ==> IsSpace(s[n])
  {
    if s == [] || IsSpace(s[0]) then 0 else 1 + WordLength(s[1..])
  }

  /** A non-empty string without white space: what `strings.Fields` returns. */
  predicate IsWord(w: string)
  {
    w != [] && forall i :: 0 <= i < |w| ==> !IsSpace(w[i])
  }

  /** `strings.Fields`: the maximal runs of non-space characters, in order. */
  function Fields(s: string): (ws: seq<string>)
    ensures forall k :: 0 <= k < |ws| ==> IsWord(ws[k])
    decreases |s|
  {
    var t := s[LeadingSpaces(s)..];
    if t == [] then []
    else
      var n := WordLength(t);
      assert n > 0 by { assert !IsSpace(t[0]); }
      [t[..n]] + Fields(t[n..])
  }

  /** A single word is its own only field. */
  lemma FieldsOfWord(w: string)
    requires IsWord(w)
    ensures Fields(w) == [w]
  {
    assert LeadingSpaces(w) == 0;
    assert WordLength(w) == |w|;
    assert w[0..] == w && w[..|w|] == w && w[|w|..] == [];
    assert Fields([]) == [];
  }

  /** A word followed by a space: the word is the first field's length. */
  lemma WordBeforeSpace(a: string, rest: string)
    requires IsWord(a) && rest != [] && rest[0] == ' '
    ensures WordLength(a + rest) == |a|
  {
    var s := a + rest;
    assert s[|a|] == ' ';
    assert forall i :: 0 <= i < |a| ==> s[i] == a[i];
  }

  /** Two words joined by one space are two fields. */
  lemma FieldsOfTwoWords(a: string, b: string)
    requires IsWord(a) && IsWord(b)
    ensures Fields(a + " " + b) == [a, b]
  {
    var s := a + " " + b;
    WordBeforeSpace(a, " " + b);
    assert s == a + (" " + b);
    assert s[0] == a[0];
    assert LeadingSpaces(s) == 0;
    assert s[0..] == s && s[..|a|] == a && s[|a|..] == " " + b;
    SpaceThenWord(b);
    FieldsOfWord(b);
  }

  /** A space then a word: the fields are those of the word. */
  lemma SpaceThenWord(b: string)
    requires IsWord(b)
    ensures Fields(" " + b) == Fields(b)
  {
    var t := " " + b;
    assert t[1] == b[0] && t[1..] == b;
    assert LeadingSpaces(b) == 0;
    assert LeadingSpaces(t) == 1;
  }

  /** Every character of `w` occurs in `s`. */
  predicate CharsWithin(w: string, s: string)
  {
    forall c :: c in w ==> c in s
  }

  lemma SliceCharsWithin(s: string, a: nat, b: nat)
    requires a <= b <= |s|
    ensures CharsWithin(s[a..b], s)
  {
    forall c | c in s[a..b] ensures c in s {
      var j :| 0 <= j < b - a && s[a..b][j] == c;
      assert s[a + j] == c;
    }
  }

  /** Every character of a field is a character of the input. */
  lemma {:induction false} FieldsCharsFrom(s: string)
    ensures forall k :: 0 <= k < |Fields(s)| ==> CharsWithin(Fields(s)[k], s)
    decreases |s|
  {
    var t := s[LeadingSpaces(s)..];
    SliceCharsWithin(s, LeadingSpaces(s), |s|);
    if t != [] {
      var n := WordLength(t);
      assert !IsSpace(t[0]);
      FieldsCharsFrom(t[n..]);
      SliceCharsWithin(t, 0, n);
      SliceCharsWithin(t, n, |t|);
      assert t[0..n] == t[..n];
    }
  }

  /** `strings.Join`. */
  function Join(ws: seq<string>, sep: string): string
  {
    if ws == [] then []
    else if |ws| == 1 then ws[0]
    else ws[0] + sep + Join(ws[1..], sep)
  }

  /** White space only as single ASCII spaces between non-space characters. */
  ghost predicate SingleSpaced(r: string)
  {
    && (forall i :: 0 <= i < |r| && IsSpace(r[i]) ==> r[i] == ' ')
    && (r != [] ==> r[0] != ' ' && r[|r| - 1] != ' ')
    && (forall i, j :: 0 <= i && j == i + 1 && j < |r| ==> !(r[i] == ' ' && r[j] == ' '))
  }

  /** Joining words with one space gives a single-spaced string. */
  lemma {:induction false} JoinWordsSingleSpaced(ws: seq<string>)
    requires forall k :: 0 <= k < |ws| ==> IsWord(ws[k])
    ensures SingleSpaced(Join(ws, " "))
  {
    if |ws| > 1 {
      var rest := Join(ws[1..], " ");
      JoinWordsSingleSpaced(ws[1..]);
      var r := Join(ws, " ");
      assert r == ws[0] + " " + rest;
      assert rest != [] && rest[0] == ws[1][0] by {
        if |ws[1..]| > 1 {
          assert rest == ws[1] + " " + Join(ws[2..], " ");
        }
      }
      forall i | 0 <= i < |r| && IsSpace(r[i]) ensures r[i] == ' ' {
        if i > |ws[0]| {
          assert r[i] == rest[i - |ws[0]| - 1];
        }
      }
      forall i, j | 0 <= i && j == i + 1 && j < |r|
        ensures !(r[i] == ' ' && r[j] == ' ')
      {
        if j == |ws[0]| {
          assert r[i] == ws[0][|ws[0]| - 1];
        } else if j == |ws[0]| + 1 {
          assert r[j] == ws[1][0];
        } else if j > |ws[0]| + 1 {
          assert r[i] == rest[i - |ws[0]| - 1] && r[j] == rest[j - |ws[0]| - 1];
        }
      }
      assert r[|r| - 1] == rest[|rest| - 1];
    }
  }

  /** The characters of a joined string are separator characters or
      characters of the parts. */
  lemma {:induction false} JoinCharsWithin(ws: seq<string>, s: string)
    requires forall k :: 0 <= k < |ws| ==> CharsWithin(ws[k], s)
    ensures forall c :: c in Join(ws, " ") ==> c == ' ' || c in s
  {
    if |ws| > 1 {
      JoinCharsWithin(ws[1..], s);
      assert Join(ws, " ") == ws[0] + " " + Join(ws[1..], " ");
    }
  }

  /** `strings.Join(strings.Fields(s), " ")`: white space collapsed to single
      spaces and trimmed; every other character comes from `s`. */
  lemma CollapseSpaces(s: string)
    ensures SingleSpaced(Join(Fields(s), " "))
    ensures forall c :: c in Join(Fields(s), " ") ==> c == ' ' || c in s
  {
    JoinWordsSingleSpaced(Fields(s));
    FieldsCharsFrom(s);
    JoinCharsWithin(Fields(s), s);
  }

  // ---------------------------------------------------------------------------
  // Regular-expression building blocks

  /** The length of the longest prefix of RE2 `\s` characters (what a greedy
      `\s*` consumes). */
  function ReSpaceRun(s: string): (n: nat)
    ensures n <= |s|
    ensures forall i :: 0 <= i < n ==> IsReSpace(s[i])
    ensures n < |s| ==> !IsReSpace(s[n])
  {
    if s == [] || !IsReSpace(s[0]) then 0 else 1 + ReSpaceRun(s[1..])
  }

  /** The length of the longest prefix of `\w` characters (what a greedy `\w+`
      or `\w*` consumes). */
  function WordRun(s: string): (n: nat)
    ensures n <= |s|
    ensures forall i :: 0 <= i < n ==> IsWordChar(s[i])
    ensures n < |s| ==> !IsWordChar(s[n])
  {
    if s == [] || !IsWordChar(s[0]) then 0 else 1 + WordRun(s[1..])
  }

  /** The capture groups of all matches of "```(?:json)?\s*([\s\S]*?)```" in
      `s` from position `from` on, in order (`FindAllStringSubmatch`). A match
      starts at the first remaining fence; its content starts after an optional
      `json` tag and the white space after it, and runs to the next fence. When
      the first remaining fence has no closing fence, no later one has either. */
  function FencedBlocks(s: string, from: nat): (blocks: seq<string>)
    requires from <= |s|
    ensures forall k :: 0 <= k < |blocks| ==> !Contains(blocks[k], "```")
    decreases |s| - from
  {
    match IndexFrom(s, "```", from)
    case None => []
    case Some(i) =>
      var p := if i + 7 <= |s| && s[i + 3..i + 7] == "json" then i + 7 else i + 3;
      var q := p + ReSpaceRun(s[p..]);
      match IndexFrom(s, "```", q)
      case None => []
      case Some(e) =>
        NoFenceBefore(s, q, e);
        [s[q..e]] + FencedBlocks(s, e + 3)
  }

  /** A slice that ends at the first fence after its start contains no fence. */
  lemma NoFenceBefore(s: string, q: nat, e: nat)
    requires q <= e <= |s|
    requires forall k :: q <= k < e ==> !OccursAt(s, "```", k)
    ensures !Contains(s[q..e], "```")
  {
    if Contains(s[q..e], "```") {
      var i :| 0 <= i <= |s[q..e]| - 3 && OccursAt(s[q..e], "```", i);
      forall j | 0 <= j < 3 ensures s[q + i..q + i + 3][j] == "```"[j] {
        assert s[q + i + j] == s[q..e][i..i + 3][j];
      }
      assert OccursAt(s, "```", q + i);
    }
  }

  // ---------------------------------------------------------------------------
  // Decimal numerals

  function DigitValue(c: char): (d: nat)
    requires IsDigit(c)
    ensures d < 10
  {
    c as int - '0' as int
  }

  function DigitChar(d: nat): (c: char)
    requires d < 10
    ensures IsDigit(c) && DigitValue(c) == d
  {
    ('0' as int + d) as char
  }

  predicate AllDigits(s: string)
  {
    forall i :: 0 <= i < |s| ==> IsDigit(s[i])
  }

  /** The value of a string of decimal digits, most significant first
      (leading zeros allowed). */
  function DigitsValue(s: string): nat
    requires AllDigits(s)
  {
    if s == [] then 0 else DigitsValue(s[..|s| - 1]) * 10 + DigitValue(s[|s| - 1])
  }

  /** `strconv.Itoa` / `%d` on a natural number. */
  function NatToString(n: nat): (r: string)
    ensures r != [] && AllDigits(r)
    decreases n
  {
    if n < 10 then [DigitChar(n)] else NatToString(n / 10) + [DigitChar(n % 10)]
  }

  /** The digits read back as the number printed. */
  lemma {:induction false} NatToStringValue(n: nat)
    ensures DigitsValue(NatToString(n)) == n
    decreases n
  {
    if n >= 10 {
      NatToStringValue(n / 10);
      var r := NatToString(n);
      assert r[..|r| - 1] == NatToString(n / 10);
    }
  }

  /** `%d` on any integer. */
  function IntToString(n: int): (r: string)
    ensures r != [] && (r[0] == '-' <==> n < 0)
  {
    if n < 0 then "-" + NatToString(-n) else NatToString(n)
  }

  /** Distinct integers print differently. */
  lemma IntToStringInjective(a: int, b: int)
    requires IntToString(a) == IntToString(b)
    ensures a == b
  {
    if a < 0 {
      assert NatToString(-a) == IntToString(a)[1..] == IntToString(b)[1..] == NatToString(-b);
      NatToStringValue(-a);
      NatToStringValue(-b);
    } else {
      NatToStringValue(a);
      NatToStringValue(b);
    }
  }
}
