/**
 * String helpers of the UI layer: initials of a name, truncation to a number
 * of space-separated words, and a word count.
 *
 * Strings are sequences of characters. Only ASCII is modelled: whitespace is
 * the fixed ASCII set that `trim` and `\s` recognise, and upper-casing maps
 * `a`..`z` to `A`..`Z` and leaves every other character alone.
 */
module StringUtils {
  import opened Common

  // ---------------------------------------------------------------------------
  // Characters
  // ---------------------------------------------------------------------------

  /** Space, tab, line feed, vertical tab, form feed, carriage return. */
  predicate IsSpace(c: char) {
    c == ' ' || c == '\t' || c == '\n' || c == '\U{0B}' || c == '\U{0C}' || c == '\r'
  }

  predicate NoSpace(s: string) {
    forall i :: 0 <= i < |s| ==> !IsSpace(s[i])
  }

  function Upper(c: char): char {
    if 'a' <= c <= 'z' then (c as int - 32) as char else c
  }

  /** `toUpperCase`, character by character. */
  function UpperAll(s: string): (r: string)
    ensures |r| == |s|
    ensures forall i :: 0 <= i < |s| ==> r[i] == Upper(s[i])
  {
    seq(|s|, i requires 0 <= i < |s| => Upper(s[i]))
  }

  /** `padEnd(n, c)`: appends copies of `c` until the length is `n`. */
  function PadEnd(s: string, n: nat, c: char): (r: string)
    ensures |r| == if |s| < n then n else |s|
    ensures r[..|s|] == s
    ensures forall i :: |s| <= i < |r| ==> r[i] == c
  {
    if |s| < n then s + seq(n - |s|, _ => c) else s
  }

  // ---------------------------------------------------------------------------
  // Whitespace tokens: `name.trim().split(/\s+/).filter(Boolean)`
  // ---------------------------------------------------------------------------

  /** Length of the run of non-whitespace characters that starts `s`. */
  function WordLength(s: string): (n: nat)
    ensures n <= |s|
    ensures NoSpace(s[..n])
    ensures n < |s| ==> IsSpace(s[n])
  {
    if s == [] || IsSpace(s[0]) then 0 else 1 + WordLength(s[1..])
  }

  /**
   * The maximal runs of non-whitespace characters of `s`, in order. Trimming,
   * splitting on whitespace runs and dropping empty pieces gives exactly these.
   */
  function Tokens(s: string): (r: seq<string>)
    ensures forall t :: t in r ==> |t| > 0 && NoSpace(t)
    decreases |s|
  {
    if s == [] then []
    else if IsSpace(s[0]) then Tokens(s[1..])
    else
      var n := WordLength(s);
      [s[..n]] + Tokens(s[n..])
  }

  /** Initials of a name: always two characters. */
  function GetInitials(name: string): (r: string)
    ensures |r| == 2
  {
    var parts := Tokens(name);
    if |parts| == 0 then "  "
    else if |parts| == 1 then
      var single := UpperAll(parts[0]);
      if |single| >= 2 then single[..2] else PadEnd(single, 2, ' ')
    else
      var firstInitial := parts[0][0];
      var lastInitial := parts[|parts| - 1][0];
      UpperAll([firstInitial, lastInitial])
  }

  // ---------------------------------------------------------------------------
  // Splitting on and joining with a single separator character
  // ---------------------------------------------------------------------------

  /** `s.split(sep)` for a one-character separator: the pieces between separators. */
  function Split(s: string, sep: char): (r: seq<string>)
    ensures |r| >= 1
    ensures forall piece :: piece in r ==> sep !in piece
  {
    if s == [] then [[]]
    else
      var rest := Split(s[1..], sep);
      if s[0] == sep then [[]] + rest
      else [[s[0]] + rest[0]] + rest[1..]
  }

  /** The number of characters in all pieces together. */
  function TotalLength(words: seq<string>): nat {
    if words == [] then 0 else |words[0]| + TotalLength(words[1..])
  }

  /** `words.join(sep)`: the text starts with the first word. */
  function Join(words: seq<string>, sep: char): (r: string)
    ensures |words| >= 1 ==> words[0] <= r
  {
    if |words| == 0 then []
    else if |words| == 1 then words[0]
    else words[0] + [sep] + Join(words[1..], sep)
  }

  /** The joined text is as long as all pieces together plus one separator between each two. */
  lemma {:induction false} JoinLength(words: seq<string>, sep: char)
    requires |words| >= 1
    ensures |Join(words, sep)| == TotalLength(words) + |words| - 1
  {
    if |words| >= 2 {
      JoinLength(words[1..], sep);
    }
  }

  /** Joining pieces that do not contain the separator puts exactly one separator between each two. */
  lemma {:induction false} JoinCount(words: seq<string>, sep: char)
    requires |words| >= 1 && forall i :: 0 <= i < |words| ==> sep !in words[i]
    ensures Count(Join(words, sep), sep) == |words| - 1
  {
    CountAbsent(words[0], sep);
    if |words| >= 2 {
      var rest := Join(words[1..], sep);
      JoinCount(words[1..], sep);
      CountAppend(words[0] + [sep], rest, sep);
      CountAppend(words[0], [sep], sep);
    }
  }

  function Min(a: nat, b: nat): nat {
    if a <= b then a else b
  }

  const Ellipsis := "..."

  /**
   * `truncate(text, maxWords)`: the first `maxWords` space-separated pieces of
   * `text`, followed by an ellipsis when pieces were dropped. A missing or
   * empty text gives the empty string; a missing or zero limit gives the text.
   */
  function Truncate(text: Option<string>, maxWords: Option<nat>): (r: string)
    ensures text.None? || text.value == "" ==> r == ""
    ensures text.Some? && text.value != "" && (maxWords.None? || maxWords.value == 0) ==> r == text.value
  {
    if text.None? || text.value == "" then ""
    else if maxWords.None? || maxWords.value == 0 then text.value
    else
      var words := Split(text.value, ' ');
      var needsTruncation := |words| > maxWords.value;
      Join(words[..Min(maxWords.value, |words|)], ' ') + (if needsTruncation then Ellipsis else "")
  }

  /** Number of occurrences of `c` in `s`. */
  function Count(s: string, c: char): nat {
    if s == [] then 0 else (if s[0] == c then 1 else 0) + Count(s[1..], c)
  }

  /** Occurrences in a concatenation add up. */
  lemma {:induction false} CountAppend(a: string, b: string, c: char)
    ensures Count(a + b, c) == Count(a, c) + Count(b, c)
  {
    if a != [] {
      assert (a + b)[1..] == a[1..] + b;
      CountAppend(a[1..], b, c);
    } else {
      assert a + b == b;
    }
  }

  lemma {:induction false} CountAbsent(s: string, c: char)
    ensures c !in s ==> Count(s, c) == 0
  {
    if s != [] {
      CountAbsent(s[1..], c);
    }
  }

  /**
   * `wordCount(text)`: zero for a missing or empty text, otherwise one more
   * than the number of spaces (empty pieces between doubled spaces count).
   */
  function WordCount(text: Option<string>): (r: nat)
    ensures text.None? || text.value == "" ==> r == 0
    ensures text.Some? && text.value != "" ==> r == Count(text.value, ' ') + 1
  {
    if text.None? || text.value == "" then 0
    else
      SplitLength(text.value, ' ');
      |Split(text.value, ' ')|
  }

  // ---------------------------------------------------------------------------
  // Split and Join
  // ---------------------------------------------------------------------------

  /** Splitting yields one piece more than there are separators. */
  lemma {:induction false} SplitLength(s: string, sep: char)
    ensures |Split(s, sep)| == Count(s, sep) + 1
  {
    if s != [] {
      SplitLength(s[1..], sep);
    }
  }

  /** Joining a piece in front of at least one more piece puts one separator after it. */
  lemma JoinCons(w: string, rest: seq<string>, sep: char)
    requires |rest| >= 1
    ensures Join([w] + rest, sep) == w + [sep] + Join(rest, sep)
  {
    assert ([w] + rest)[1..] == rest;
  }

  /** Joining the pieces back with the separator restores the text. */
  lemma {:induction false} JoinSplit(s: string, sep: char)
    ensures Join(Split(s, sep), sep) == s
  {
    if s != [] {
      var rest := Split(s[1..], sep);
      JoinSplit(s[1..], sep);
      assert s == [s[0]] + s[1..];
      if s[0] == sep {
        JoinCons([], rest, sep);
      } else if |rest| == 1 {
        assert Split(s, sep) == [[s[0]] + rest[0]];
      } else {
        assert Split(s, sep) == [[s[0]] + rest[0]] + rest[1..];
        JoinCons([s[0]] + rest[0], rest[1..], sep);
        JoinCons(rest[0], rest[1..], sep);
        assert [rest[0]] + rest[1..] == rest;
      }
    }
  }

  /** A piece without separators splits to itself. */
  lemma {:induction false} SplitPiece(w: string, sep: char)
    requires sep !in w
    ensures Split(w, sep) == [w]
  {
    if w != [] {
      SplitPiece(w[1..], sep);
      assert [w[0]] + w[1..] == w;
    }
  }

  /** Splitting a piece, a separator and more text splits off exactly that piece. */
  lemma {:induction false} SplitAfterPiece(w: string, sep: char, rest: string)
    requires sep !in w
    ensures Split(w + [sep] + rest, sep) == [w] + Split(rest, sep)
  {
    if w == [] {
      assert w + [sep] + rest == [sep] + rest;
      assert ([sep] + rest)[1..] == rest;
    } else {
      var s := w + [sep] + rest;
      assert s[1..] == w[1..] + [sep] + rest;
      SplitAfterPiece(w[1..], sep, rest);
      assert [w[0]] + w[1..] == w;
    }
  }

  /** Splitting joined pieces that contain no separator gives the pieces back. */
  lemma {:induction false} SplitJoin(words: seq<string>, sep: char)
    requires |words| >= 1
    requires forall w :: w in words ==> sep !in w
    ensures Split(Join(words, sep), sep) == words
  {
    if |words| == 1 {
      SplitPiece(words[0], sep);
    } else {
      SplitJoin(words[1..], sep);
      SplitAfterPiece(words[0], sep, Join(words[1..], sep));
      assert [words[0]] + words[1..] == words;
    }
  }

  /** Joining splits at any inner boundary between pieces. */
  lemma {:induction false} JoinAt(words: seq<string>, n: nat, sep: char)
    requires 0 < n < |words|
    ensures Join(words, sep) == Join(words[..n], sep) + [sep] + Join(words[n..], sep)
  {
    assert [words[0]] + words[1..] == words;
    JoinCons(words[0], words[1..], sep);
    if n == 1 {
      assert words[..n] == [words[0]];
      assert words[1..] == words[n..];
    } else {
      var front := words[..n][1..];
      JoinAt(words[1..], n - 1, sep);
      assert words[1..][..n - 1] == front;
      assert words[1..][n - 1..] == words[n..];
      assert [words[0]] + front == words[..n];
      JoinCons(words[0], front, sep);
      var a, b, c := words[0] + [sep], Join(front, sep), Join(words[n..], sep);
      assert a + (b + [sep] + c) == (a + b) + [sep] + c;
    }
  }

  // ---------------------------------------------------------------------------
  // Truncate and WordCount
  // ---------------------------------------------------------------------------

  /** A text with at most `maxWords` pieces comes back unchanged, without an ellipsis. */
  lemma TruncateKeepsShortText(text: string, maxWords: nat)
    requires text != "" && maxWords > 0
    requires WordCount(Some(text)) <= maxWords
    ensures Truncate(Some(text), Some(maxWords)) == text
  {
    var words := Split(text, ' ');
    assert words[..Min(maxWords, |words|)] == words;
    JoinSplit(text, ' ');
  }

  /**
   * A text with more than `maxWords` pieces becomes a prefix of itself that
   * ends just before a space, holds exactly `maxWords` pieces, and is followed
   * by the ellipsis.
   */
  lemma TruncateDropsWords(text: string, maxWords: nat)
    requires text != "" && maxWords > 0
    requires WordCount(Some(text)) > maxWords
    ensures var r := Truncate(Some(text), Some(maxWords));
            var kept := r[..|r| - |Ellipsis|];
            |r| >= |Ellipsis| && r[|r| - |Ellipsis|..] == Ellipsis
            && |kept| < |text| && kept == text[..|kept|] && text[|kept|] == ' '
            && |Split(kept, ' ')| == maxWords
  {
    var words := Split(text, ' ');
    var kept := Join(words[..maxWords], ' ');
    var r := Truncate(Some(text), Some(maxWords));
    assert r == kept + Ellipsis;
    assert r[..|r| - |Ellipsis|] == kept;
    JoinSplit(text, ' ');
    JoinAt(words, maxWords, ' ');
    assert text == kept + [' '] + Join(words[maxWords..], ' ');
    SplitJoin(words[..maxWords], ' ');
  }

  // ---------------------------------------------------------------------------
  // Tokens and GetInitials
  // ---------------------------------------------------------------------------

  lemma {:induction false} WordLengthOfWord(w: string, rest: string)
    requires NoSpace(w)
    requires rest == [] || IsSpace(rest[0])
    ensures WordLength(w + rest) == |w|
  {
    if w != [] {
      assert (w + rest)[1..] == w[1..] + rest;
      WordLengthOfWord(w[1..], rest);
    } else {
      assert w + rest == rest;
    }
  }

  /** Whitespace in front of a text, as `trim` removes it, does not change its tokens. */
  lemma {:induction false} TokensSkipSpace(ws: string, s: string)
    requires forall i :: 0 <= i < |ws| ==> IsSpace(ws[i])
    ensures Tokens(ws + s) == Tokens(s)
  {
    if ws != [] {
      assert (ws + s)[1..] == ws[1..] + s;
      TokensSkipSpace(ws[1..], s);
    } else {
      assert ws + s == s;
    }
  }

  /** A blank name has no tokens. */
  lemma BlankHasNoTokens(s: string)
    requires AllSpace(s)
    ensures Tokens(s) == []
  {
    TokensSkipSpace(s, []);
    assert s + [] == s;
  }

  /** A word followed by whitespace, or by nothing, is tokenised into that word and the tokens of the rest. */
  lemma TokensOfWordThen(w: string, rest: string)
    requires IsWord(w)
    requires rest == [] || IsSpace(rest[0])
    ensures Tokens(w + rest) == [w] + Tokens(rest)
  {
    var s := w + rest;
    WordLengthOfWord(w, rest);
    assert s[..|w|] == w;
    assert s[|w|..] == rest;
  }

  predicate AllSpace(s: string) {
    forall i :: 0 <= i < |s| ==> IsSpace(s[i])
  }

  predicate IsWord(w: string) {
    |w| > 0 && NoSpace(w)
  }

  /** The name `gaps[0] + words[0] + gaps[1] + ... + words[n-1] + gaps[n]`. */
  function Spaced(gaps: seq<string>, words: seq<string>): string
    requires |gaps| == |words| + 1
    decreases |words|
  {
    if words == [] then gaps[0]
    else gaps[0] + words[0] + Spaced(gaps[1..], words[1..])
  }

  /**
   * Words separated by runs of whitespace: the runs between two words are
   * non-empty, the runs before the first and after the last may be empty.
   */
  ghost predicate Layout(gaps: seq<string>, words: seq<string>) {
    && |gaps| == |words| + 1
    && (forall i :: 0 <= i < |gaps| ==> AllSpace(gaps[i]))
    && (forall i :: 0 < i < |words| ==> gaps[i] != [])
    && (forall i :: 0 <= i < |words| ==> IsWord(words[i]))
  }

  /**
   * Trimming, splitting on whitespace runs of any length and dropping empty
   * pieces gives back exactly the words of the name, in order.
   */
  lemma {:induction false} TokensOfSpaced(gaps: seq<string>, words: seq<string>)
    requires Layout(gaps, words)
    ensures Tokens(Spaced(gaps, words)) == words
  {
    if words == [] {
      BlankHasNoTokens(gaps[0]);
    } else {
      var rest := Spaced(gaps[1..], words[1..]);
      assert Layout(gaps[1..], words[1..]);
      assert rest == [] || IsSpace(rest[0]) by {
        if |words| > 1 {
          assert gaps[1] != [];
          assert rest == gaps[1] + (words[1] + Spaced(gaps[2..], words[2..])) by {
            assert gaps[1..][1..] == gaps[2..];
          }
        }
      }
      TokensOfWordThen(words[0], rest);
      TokensSkipSpace(gaps[0], words[0] + rest);
      assert Spaced(gaps, words) == gaps[0] + (words[0] + rest);
      TokensOfSpaced(gaps[1..], words[1..]);
      assert [words[0]] + words[1..] == words;
    }
  }

  /** The initials of a blank name are two spaces. */
  lemma InitialsOfBlank(name: string)
    requires AllSpace(name)
    ensures GetInitials(name) == "  "
  {
    BlankHasNoTokens(name);
  }

  /**
   * A one-word name, with any whitespace around it, gives the word's first
   * two characters upper-cased, or its one character upper-cased and padded
   * with a space.
   */
  lemma InitialsOfOneWord(before: string, word: string, after: string)
    requires AllSpace(before) && IsWord(word) && AllSpace(after)
    ensures GetInitials(before + word + after) == [Upper(word[0]), if |word| >= 2 then Upper(word[1]) else ' ']
  {
    assert Spaced([before, after], [word]) == before + word + after by {
      assert [before, after][1..] == [after];
    }
    TokensOfSpaced([before, after], [word]);
  }

  /**
   * A name of two or more words, separated and surrounded by any whitespace,
   * gives the upper-cased first character of the first word and of the last.
   */
  lemma InitialsOfWords(gaps: seq<string>, words: seq<string>)
    requires Layout(gaps, words) && |words| >= 2
    ensures GetInitials(Spaced(gaps, words)) == [Upper(words[0][0]), Upper(words[|words| - 1][0])]
  {
    TokensOfSpaced(gaps, words);
    InitialsOfTokens(Spaced(gaps, words));
  }

  lemma InitialsOfTokens(name: string)
    requires |Tokens(name)| >= 2
    ensures GetInitials(name) == [Upper(Tokens(name)[0][0]), Upper(Tokens(name)[|Tokens(name)| - 1][0])]
  {
  }

  // ---------------------------------------------------------------------------
  // The documented examples
  // ---------------------------------------------------------------------------

  lemma InitialsOfTwoWordsExample()
    ensures GetInitials("John Doe") == "JD"
  {
    var words := ["John", "Doe"];
    assert IsWord("John") && IsWord("Doe");
    var gaps := ["", " ", ""];
    assert Spaced(gaps, words) == "John Doe";
    InitialsOfWords(gaps, words);
  }

  /** Leading, trailing and repeated whitespace, tabs included, make no difference. */
  lemma InitialsOfWideSpacingExample()
    ensures GetInitials(" John \t Doe  ") == "JD"
  {
    var words := ["John", "Doe"];
    assert IsWord("John") && IsWord("Doe");
    var gaps := [" ", " \t ", "  "];
    assert AllSpace(" \t ");
    assert Spaced(gaps, words) == " John \t Doe  ";
    InitialsOfWords(gaps, words);
  }

  lemma InitialsOfThreeWordsExample()
    ensures GetInitials("John Jacob Smith") == "JS"
  {
    var words := ["John", "Jacob", "Smith"];
    assert IsWord("John") && IsWord("Jacob") && IsWord("Smith");
    var gaps := ["", " ", " ", ""];
    assert Layout(gaps, words);
    assert Spaced(gaps, words) == "John Jacob Smith";
    InitialsOfWords(gaps, words);
  }

  lemma InitialsOfJohnExample()
    ensures GetInitials("John") == "JO"
  {
    InitialsOfWord("John");
  }

  lemma InitialsOfJohnathanExample()
    ensures GetInitials("Johnathan") == "JO"
  {
    InitialsOfWord("Johnathan");
  }

  /** A name that is one word, with no whitespace at all, gives its first two characters upper-cased. */
  lemma InitialsOfWord(word: string)
    requires |word| >= 2 && forall i :: 0 <= i < |word| ==> 'a' <= word[i] <= 'z' || 'A' <= word[i] <= 'Z'
    ensures GetInitials(word) == [Upper(word[0]), Upper(word[1])]
  {
    InitialsOfOneWord("", word, "");
    assert "" + word + "" == word;
  }

  lemma TruncateExamples()
    ensures Truncate(Some("a b c d"), Some(2)) == "a b..."
    ensures Truncate(None, Some(3)) == ""
  {
    var words := ["a", "b", "c", "d"];
    JoinOfLetters();
    TruncateOfJoin(words, 2);
    assert words[..2] == ["a", "b"];
  }

  lemma TruncateOfJoin(words: seq<string>, n: nat)
    requires 0 < n < |words| && forall i :: 0 <= i < |words| ==> ' ' !in words[i]
    ensures Truncate(Some(Join(words, ' ')), Some(n)) == Join(words[..n], ' ') + Ellipsis
  {
    var text := Join(words, ' ');
    JoinHasSeparator(words, ' ');
    SplitJoin(words, ' ');
    assert Truncate(Some(text), Some(n)) == Join(Split(text, ' ')[..Min(n, |words|)], ' ') + Ellipsis;
  }

  /** Joining two or more pieces puts a separator in the text, so it is not empty. */
  lemma JoinHasSeparator(words: seq<string>, sep: char)
    requires |words| >= 2
    ensures sep in Join(words, sep)
  {
    assert [words[0]] + words[1..] == words;
    JoinCons(words[0], words[1..], sep);
    assert (words[0] + [sep] + Join(words[1..], sep))[|words[0]|] == sep;
  }

  lemma JoinOfLetters()
    ensures Join(["a", "b", "c", "d"], ' ') == "a b c d"
    ensures Join(["a", "b"], ' ') == "a b"
  {
    var words := ["a", "b", "c", "d"];
    assert words[3..] == ["d"];
    assert words[2..][1..] == words[3..];
    assert words[1..][1..] == words[2..];
    assert ["a", "b"][1..] == ["b"];
  }

  lemma TruncateShortExample()
    ensures Truncate(Some("a b"), Some(5)) == "a b"
  {
    TruncateKeepsShortText("a b", 5);
  }

  lemma WordCountExamples()
    ensures WordCount(Some("")) == 0
    ensures WordCount(Some("a b c")) == 3
    ensures WordCount(Some("a  b")) == 3
  {
  }
}
