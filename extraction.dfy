/**
 * `extractKeywordAndCategory`: pulling a keyword and a content category out
 * of a free-text request.
 *
 * The message is lower-cased first. For the keyword, an ordered list of
 * capture patterns is tried and the first one whose capture group is non-empty
 * wins; if that yields nothing (no pattern captures, or the capture trims to
 * the empty string) the message is split on whitespace and punctuation and the
 * first piece of length two or more that holds no category word is taken. For
 * the category, an ordered list of patterns is tried and the first one that
 * matches at all wins; the last of them finds the leftmost category word.
 *
 * The capture patterns (four for the keyword, two for the category) are
 * regular expressions with backtracking; they are parameters here, each a
 * function from the lower-cased message to what the code reads from its match
 * (the capture group for the keyword, the whole match for the category).
 */
module Extraction {
  import opened Wrappers
  import opened Text

  /** What a capture pattern yields on a message, or None when it does not match. */
  type Matcher = string -> Option<string>

  const CategoryWords: seq<string> :=
    ["测评", "分享", "教程", "攻略", "心得", "技巧", "推荐", "diy", "穿搭", "护肤", "美妆", "旅行", "美食", "健身"]

  // ---------------------------------------------------------------------------
  // The fallback tokenizer: `text.split(/\s+|[,，.。:：;；!！?？]/)`

  predicate IsPunctuation(c: char) {
    c in ",，.。:：;；!！?？"
  }

  predicate IsSeparator(c: char) {
    IsSpace(c) || IsPunctuation(c)
  }

  predicate NoSeparator(s: string) {
    forall i :: 0 <= i < |s| ==> !IsSeparator(s[i])
  }

  /**
   * The scan behind `split`: `piece` is the text gathered since the last
   * separator match, and `inSpaceRun` says the previous character was
   * whitespace of the current match. At each position `\s+` is tried first and
   * swallows the whole whitespace run; otherwise one punctuation mark is the
   * match. Each match closes the piece before it.
   */
  function SplitScan(t: string, piece: string, inSpaceRun: bool): (parts: seq<string>)
    ensures |parts| >= 1
    decreases |t|
  {
    if t == [] then [piece]
    else if IsSpace(t[0]) then
      if inSpaceRun then SplitScan(t[1..], piece, true)
      else [piece] + SplitScan(t[1..], "", true)
    else if IsPunctuation(t[0]) then [piece] + SplitScan(t[1..], "", false)
    else SplitScan(t[1..], piece + [t[0]], false)
  }

  /**
   * `t.split(/\s+|[,，.。:：;；!！?？]/)`: the pieces between separator
   * matches, in order; consecutive punctuation yields empty pieces, and a
   * leading or trailing separator an empty first or last piece.
   */
  function Split(t: string): (parts: seq<string>)
    ensures |parts| >= 1
  {
    SplitScan(t, "", false)
  }

  /** `t` with every separator character removed. */
  function Unseparated(t: string): string {
    if t == [] then [] else (if IsSeparator(t[0]) then [] else [t[0]]) + Unseparated(t[1..])
  }

  function Concat(parts: seq<string>): string {
    if parts == [] then [] else parts[0] + Concat(parts[1..])
  }

  lemma ConcatCons(p: string, ps: seq<string>)
    ensures Concat([p] + ps) == p + Concat(ps)
  {
    assert ([p] + ps)[1..] == ps;
  }

  lemma {:induction false} SplitScanKeepsAllButSeparators(t: string, piece: string, inSpaceRun: bool)
    requires inSpaceRun ==> piece == ""
    ensures Concat(SplitScan(t, piece, inSpaceRun)) == piece + Unseparated(t)
    decreases |t|
  {
    if t == [] {
      ConcatCons(piece, []);
    } else if IsSpace(t[0]) {
      SplitScanKeepsAllButSeparators(t[1..], "", true);
      if !inSpaceRun {
        ConcatCons(piece, SplitScan(t[1..], "", true));
      }
    } else if IsPunctuation(t[0]) {
      SplitScanKeepsAllButSeparators(t[1..], "", false);
      ConcatCons(piece, SplitScan(t[1..], "", false));
    } else {
      SplitScanKeepsAllButSeparators(t[1..], piece + [t[0]], false);
      assert piece + [t[0]] + Unseparated(t[1..]) == piece + ([t[0]] + Unseparated(t[1..]));
    }
  }

  /** Splitting loses nothing but separators: the pieces, glued back together, are `t` without them. */
  lemma SplitKeepsAllButSeparators(t: string)
    ensures Concat(Split(t)) == Unseparated(t)
  {
    SplitScanKeepsAllButSeparators(t, "", false);
  }

  lemma {:induction false} SplitScanPiecesArePlain(t: string, piece: string, inSpaceRun: bool)
    requires NoSeparator(piece)
    ensures forall i :: 0 <= i < |SplitScan(t, piece, inSpaceRun)| ==> NoSeparator(SplitScan(t, piece, inSpaceRun)[i])
    decreases |t|
  {
    if t != [] {
      if IsSpace(t[0]) {
        SplitScanPiecesArePlain(t[1..], if inSpaceRun then piece else "", true);
      } else if IsPunctuation(t[0]) {
        SplitScanPiecesArePlain(t[1..], "", false);
      } else {
        var p := piece + [t[0]];
        assert forall i :: 0 <= i < |p| ==> p[i] == (if i < |piece| then piece[i] else t[0]);
        SplitScanPiecesArePlain(t[1..], p, false);
      }
    }
  }

  /** No piece holds a separator. */
  lemma SplitPiecesArePlain(t: string)
    ensures forall i :: 0 <= i < |Split(t)| ==> NoSeparator(Split(t)[i])
  {
    SplitScanPiecesArePlain(t, "", false);
  }

  /** Text without separators is a single piece. */
  lemma {:induction false} SplitOfPlain(t: string, piece: string)
    requires NoSeparator(t)
    ensures SplitScan(t, piece, false) == [piece + t]
    decreases |t|
  {
    if t == [] {
      assert piece + t == piece;
    } else {
      assert NoSeparator(t[1..]) by {
        forall i | 0 <= i < |t| - 1 ensures !IsSeparator(t[1..][i]) {
          assert t[1..][i] == t[i + 1];
        }
      }
      SplitOfPlain(t[1..], piece + [t[0]]);
      assert piece + [t[0]] + t[1..] == piece + t;
    }
  }

  /** A separator-free stretch only lengthens the current piece. */
  lemma {:induction false} SplitScanThroughPlain(a: string, rest: string, piece: string)
    requires NoSeparator(a)
    ensures SplitScan(a + rest, piece, false) == SplitScan(rest, piece + a, false)
    decreases |a|
  {
    if a == [] {
      assert a + rest == rest && piece + a == piece;
    } else {
      assert !IsSeparator(a[0]);
      assert NoSeparator(a[1..]) by {
        forall i | 0 <= i < |a| - 1 ensures !IsSeparator(a[1..][i]) {
          assert a[1..][i] == a[i + 1];
        }
      }
      assert (a + rest)[0] == a[0] && (a + rest)[1..] == a[1..] + rest;
      SplitScanThroughPlain(a[1..], rest, piece + [a[0]]);
      assert piece + [a[0]] + a[1..] == piece + a;
    }
  }

  /** A whitespace run continues the current match and adds no piece. */
  lemma {:induction false} SplitScanThroughSpace(w: string, rest: string)
    requires AllSpace(w)
    ensures SplitScan(w + rest, "", true) == SplitScan(rest, "", true)
    decreases |w|
  {
    if w != [] {
      assert (w + rest)[0] == w[0] && (w + rest)[1..] == w[1..] + rest;
      assert AllSpace(w[1..]) by {
        forall i | 0 <= i < |w| - 1 ensures IsSpace(w[1..][i]) {
          assert w[1..][i] == w[i + 1];
        }
      }
      SplitScanThroughSpace(w[1..], rest);
    } else {
      assert w + rest == rest;
    }
  }

  /**
   * A punctuation mark ends the piece before it: the text up to the first
   * separator, when that separator is a punctuation mark, is the first piece
   * and the split goes on after the mark.
   */
  lemma SplitAtPunctuation(a: string, c: char, b: string)
    requires NoSeparator(a) && IsPunctuation(c)
    ensures Split(a + [c] + b) == [a] + Split(b)
  {
    assert a + [c] + b == a + ([c] + b);
    SplitScanThroughPlain(a, [c] + b, "");
    assert "" + a == a;
    assert ([c] + b)[0] == c && ([c] + b)[1..] == b;
  }

  /**
   * A whole whitespace run ends the piece before it: the text up to the first
   * separator, when a maximal run of whitespace starts there, is the first
   * piece and the split goes on after the run.
   */
  lemma SplitAtSpaceRun(a: string, w: string, b: string)
    requires NoSeparator(a) && w != [] && AllSpace(w)
    requires b == [] || !IsSpace(b[0])
    ensures Split(a + w + b) == [a] + Split(b)
  {
    assert a + w + b == a + (w + b);
    SplitScanThroughPlain(a, w + b, "");
    assert "" + a == a;
    assert (w + b)[0] == w[0] && (w + b)[1..] == w[1..] + b;
    assert AllSpace(w[1..]) by {
      forall i | 0 <= i < |w| - 1 ensures IsSpace(w[1..][i]) {
        assert w[1..][i] == w[i + 1];
      }
    }
    SplitScanThroughSpace(w[1..], b);
  }

  // ---------------------------------------------------------------------------
  // Keyword

  predicate MentionsCategoryWord(word: string) {
    exists c :: 0 <= c < |CategoryWords| && Contains(word, CategoryWords[c])
  }

  /** A split piece the fallback accepts: two or more UTF-16 units and no category word inside. */
  predicate IsKeywordCandidate(word: string) {
    Utf16Length(word) >= 2 && !MentionsCategoryWord(word)
  }

  /** `match && match[1]`: the pattern matched and its capture group is non-empty. */
  predicate Captures(m: Matcher, t: string) {
    m(t).Some? && m(t).value != ""
  }

  /** Pattern `i` captures something and no pattern before it does. */
  predicate FirstCaptures(ms: seq<Matcher>, t: string, i: nat) {
    i < |ms| && Captures(ms[i], t) && forall j :: 0 <= j < i ==> !Captures(ms[j], t)
  }

  /** Index of the first pattern that captures something. */
  function FirstCapturing(ms: seq<Matcher>, t: string): (r: Option<nat>)
    ensures r.Some? ==> r.value < |ms| && Captures(ms[r.value], t)
    ensures r.Some? ==> forall j :: 0 <= j < r.value ==> !Captures(ms[j], t)
    ensures r.None? ==> forall j :: 0 <= j < |ms| ==> !Captures(ms[j], t)
  {
    if ms == [] then None
    else if Captures(ms[0], t) then Some(0)
    else match FirstCapturing(ms[1..], t)
      case None => None
      case Some(i) => Some(i + 1)
  }

  /** The first capturing pattern is the one `FirstCapturing` finds. */
  lemma FirstCapturingIs(ms: seq<Matcher>, t: string, i: nat)
    requires FirstCaptures(ms, t, i)
    ensures FirstCapturing(ms, t) == Some(i)
  {
  }

  /** Piece `j` is acceptable and no piece before it is. */
  predicate FirstCandidateAt(words: seq<string>, j: nat) {
    j < |words| && IsKeywordCandidate(words[j]) && forall k :: 0 <= k < j ==> !IsKeywordCandidate(words[k])
  }

  /** Index of the first piece the fallback accepts. */
  function FirstCandidate(words: seq<string>): (r: Option<nat>)
    ensures r.Some? ==> r.value < |words| && IsKeywordCandidate(words[r.value])
    ensures r.Some? ==> forall j :: 0 <= j < r.value ==> !IsKeywordCandidate(words[j])
    ensures r.None? ==> forall j :: 0 <= j < |words| ==> !IsKeywordCandidate(words[j])
  {
    if words == [] then None
    else if IsKeywordCandidate(words[0]) then Some(0)
    else match FirstCandidate(words[1..])
      case None => None
      case Some(i) => Some(i + 1)
  }

  /**
   * The keyword found in the lower-cased text `t`: the trimmed capture of the
   * first capturing pattern, unless that is empty, in which case the first
   * acceptable split piece, or nothing.
   */
  function KeywordOf(t: string, ms: seq<Matcher>): string {
    var captured := CapturedKeyword(t, ms);
    if captured != "" then captured else FallbackKeyword(Split(t))
  }

  /**
   * The first capturing pattern decides the keyword when its capture is not
   * blank; otherwise (no pattern captures, or the first capture trims to
   * nothing) the keyword is the first acceptable split piece, or nothing
   * when there is none. In every case the keyword is nothing, a trimmed
   * capture or an acceptable split piece.
   */
  lemma KeywordOfSpec(t: string, ms: seq<Matcher>)
    ensures var r := KeywordOf(t, ms);
      && (r == ""
        || (exists i :: 0 <= i < |ms| && Captures(ms[i], t) && r == Trim(ms[i](t).value))
        || (r in Split(t) && IsKeywordCandidate(r)))
      && (forall i: nat | FirstCaptures(ms, t, i) && Trim(ms[i](t).value) != "" :: r == Trim(ms[i](t).value))
      && ((forall i: nat | FirstCaptures(ms, t, i) :: Trim(ms[i](t).value) == "") ==>
        && (forall j: nat | FirstCandidateAt(Split(t), j) :: r == Split(t)[j])
        && ((forall j :: 0 <= j < |Split(t)| ==> !IsKeywordCandidate(Split(t)[j])) ==> r == ""))
  {
    CapturedKeywordIsFirst(t, ms);
    var captured := CapturedKeyword(t, ms);
    if captured == "" {
      forall j: nat | FirstCandidateAt(Split(t), j)
        ensures KeywordOf(t, ms) == Split(t)[j]
      {
        FirstCandidateIs(Split(t), j);
      }
    }
  }

  /**
   * The trimmed capture of the first pattern that captures something, or
   * nothing when none does.
   */
  function CapturedKeyword(t: string, ms: seq<Matcher>): (r: string)
    ensures r == "" || exists i :: 0 <= i < |ms| && Captures(ms[i], t) && r == Trim(ms[i](t).value)
    ensures (forall i :: 0 <= i < |ms| ==> !Captures(ms[i], t)) ==> r == ""
  {
    match FirstCapturing(ms, t)
    case Some(i) => Trim(ms[i](t).value)
    case None => ""
  }

  /** The pattern that captures first, and no other, supplies the captured keyword. */
  lemma CapturedKeywordIsFirst(t: string, ms: seq<Matcher>)
    ensures forall i: nat | FirstCaptures(ms, t, i) :: CapturedKeyword(t, ms) == Trim(ms[i](t).value)
  {
    forall i: nat | FirstCaptures(ms, t, i)
      ensures CapturedKeyword(t, ms) == Trim(ms[i](t).value)
    {
      FirstCapturingIs(ms, t, i);
    }
  }

  /** The first acceptable split piece, or nothing when there is none. */
  function FallbackKeyword(words: seq<string>): (r: string)
    ensures r == "" || (r in words && IsKeywordCandidate(r))
    ensures r != "" <==> exists j :: 0 <= j < |words| && IsKeywordCandidate(words[j])
  {
    match FirstCandidate(words)
    case Some(j) => words[j]
    case None => ""
  }

  /** The first acceptable piece is the one the fallback takes. */
  lemma FirstCandidateIs(words: seq<string>, j: nat)
    requires FirstCandidateAt(words, j)
    ensures FirstCandidate(words) == Some(j)
    ensures FallbackKeyword(words) == words[j]
  {
  }

  // ---------------------------------------------------------------------------
  // Category

  /** The first category word, in list order, that `t` starts with. */
  function CategoryWordAtStart(t: string): (r: Option<string>)
    ensures r.Some? ==> r.value in CategoryWords && StartsWith(t, r.value)
    ensures r.None? ==> forall c :: 0 <= c < |CategoryWords| ==> !StartsWith(t, CategoryWords[c])
  {
    FirstPrefix(t, CategoryWords)
  }

  function FirstPrefix(t: string, ws: seq<string>): (r: Option<string>)
    ensures r.Some? ==> r.value in ws && StartsWith(t, r.value)
    ensures r.None? ==> forall c :: 0 <= c < |ws| ==> !StartsWith(t, ws[c])
  {
    if ws == [] then None
    else if StartsWith(t, ws[0]) then Some(ws[0])
    else
      var r := FirstPrefix(t, ws[1..]);
      assert forall c :: 1 <= c < |ws| ==> ws[c] == ws[1..][c - 1];
      r
  }

  predicate CategoryWordAt(t: string, i: int) {
    exists c :: 0 <= c < |CategoryWords| && OccursAt(t, CategoryWords[c], i)
  }

  /**
   * The last category pattern, the alternation of all category words: the
   * match at the leftmost position where any category word occurs.
   */
  function LeftmostCategoryWord(t: string): (r: Option<string>)
    ensures r.Some? ==> r.value in CategoryWords
    ensures r.Some? ==> exists i :: OccursAt(t, r.value, i) && forall j :: 0 <= j < i ==> !CategoryWordAt(t, j)
    ensures r.None? ==> forall j :: !CategoryWordAt(t, j)
    decreases |t|
  {
    match CategoryWordAtStart(t)
    case Some(w) =>
      assert OccursAt(t, w, 0);
      Some(w)
    case None =>
      assert !CategoryWordAt(t, 0) by {
        forall c | 0 <= c < |CategoryWords| ensures !OccursAt(t, CategoryWords[c], 0) {
          assert !StartsWith(t, CategoryWords[c]);
        }
      }
      if t == [] then
        assert forall j :: !CategoryWordAt(t, j) by {
          forall j, c | 0 <= c < |CategoryWords| ensures !OccursAt(t, CategoryWords[c], j) {
            assert |CategoryWords[c]| > 0;
          }
        }
        None
      else
        var r := LeftmostCategoryWord(t[1..]);
        ShiftedOccurrences(t);
        if r.Some? then
          var i :| OccursAt(t[1..], r.value, i) && forall j :: 0 <= j < i ==> !CategoryWordAt(t[1..], j);
          assert OccursAt(t, r.value, i + 1);
          assert forall j :: 0 <= j < i + 1 ==> !CategoryWordAt(t, j) by {
            forall j | 1 <= j < i + 1 ensures !CategoryWordAt(t, j) {
              assert !CategoryWordAt(t[1..], j - 1);
            }
          }
          r
        else
          assert forall j :: !CategoryWordAt(t, j) by {
            forall j | 1 <= j ensures !CategoryWordAt(t, j) {
              assert !CategoryWordAt(t[1..], j - 1);
            }
          }
          r
  }

  /** Occurrences in `t[1..]` are the occurrences in `t` past position 0, shifted by one. */
  lemma ShiftedOccurrences(t: string)
    requires t != []
    ensures forall w, j :: 0 <= j ==> (OccursAt(t[1..], w, j) <==> OccursAt(t, w, j + 1))
    ensures forall j :: 0 <= j ==> (CategoryWordAt(t[1..], j) <==> CategoryWordAt(t, j + 1))
  {
    forall w, j | 0 <= j ensures OccursAt(t[1..], w, j) <==> OccursAt(t, w, j + 1) {
      if 0 <= j && j + |w| <= |t| - 1 {
        assert t[1..][j..j + |w|] == t[j + 1..j + 1 + |w|];
      }
    }
  }

  /** `match` succeeded: the pattern yields something, possibly empty. */
  predicate Matches(m: Matcher, t: string) {
    m(t).Some?
  }

  /** Pattern `i` matches and no pattern before it does. */
  predicate FirstMatches(ms: seq<Matcher>, t: string, i: nat) {
    i < |ms| && Matches(ms[i], t) && forall j :: 0 <= j < i ==> !Matches(ms[j], t)
  }

  /** The first matching pattern is the one `FirstMatching` finds. */
  lemma FirstMatchingIs(ms: seq<Matcher>, t: string, i: nat)
    requires FirstMatches(ms, t, i)
    ensures FirstMatching(ms, t) == Some(i)
  {
  }

  /** Index of the first pattern that matches. */
  function FirstMatching(ms: seq<Matcher>, t: string): (r: Option<nat>)
    ensures r.Some? ==> r.value < |ms| && Matches(ms[r.value], t)
    ensures r.Some? ==> forall j :: 0 <= j < r.value ==> !Matches(ms[j], t)
    ensures r.None? ==> forall j :: 0 <= j < |ms| ==> !Matches(ms[j], t)
  {
    if ms == [] then None
    else if Matches(ms[0], t) then Some(0)
    else match FirstMatching(ms[1..], t)
      case None => None
      case Some(i) => Some(i + 1)
  }

  /**
   * The category found in the lower-cased text `t`: the trimmed match of the
   * first matching capture pattern; failing those, the last pattern, the
   * alternation of all category words, which yields the leftmost category word
   * of `t`, or nothing when `t` holds none.
   */
  function CategoryOf(t: string, ms: seq<Matcher>): string {
    match FirstMatching(ms, t)
    case Some(i) => Trim(ms[i](t).value)
    // the code trims the alternation's match too, which leaves a category word as it is
    case None => match LeftmostCategoryWord(t) case Some(w) => w case None => ""
  }

  /**
   * When some capture pattern matches, the category is the trimmed match of
   * the first one that does; otherwise it is empty exactly when no category
   * word occurs in `t`, and else the category word occurring leftmost.
   */
  lemma CategoryOfSpec(t: string, ms: seq<Matcher>)
    ensures var r := CategoryOf(t, ms);
      && (forall i: nat | FirstMatches(ms, t, i) :: r == Trim(ms[i](t).value))
      && ((exists i :: 0 <= i < |ms| && Matches(ms[i], t)) ==>
        exists i :: 0 <= i < |ms| && Matches(ms[i], t) && r == Trim(ms[i](t).value))
      && ((forall i :: 0 <= i < |ms| ==> !Matches(ms[i], t)) ==>
        && (r == "" <==> forall j :: !CategoryWordAt(t, j))
        && (r != "" ==> r in CategoryWords && exists i :: OccursAt(t, r, i) && forall j :: 0 <= j < i ==> !CategoryWordAt(t, j)))
  {
    forall i: nat | FirstMatches(ms, t, i)
      ensures CategoryOf(t, ms) == Trim(ms[i](t).value)
    {
      FirstMatchingIs(ms, t, i);
    }
    if FirstMatching(ms, t).None? {
      var w := LeftmostCategoryWord(t);
      if w.Some? {
        FoundCategoryWordOccurs(t, w.value);
      }
    }
  }

  lemma FoundCategoryWordOccurs(t: string, w: string)
    requires LeftmostCategoryWord(t) == Some(w)
    ensures exists j :: CategoryWordAt(t, j)
  {
    var i :| OccursAt(t, w, i) && forall j :: 0 <= j < i ==> !CategoryWordAt(t, j);
    var c :| 0 <= c < |CategoryWords| && CategoryWords[c] == w;
    assert CategoryWordAt(t, i);
  }

  /** Category words have no whitespace at their ends, so trimming leaves them alone. */
  lemma CategoryWordsAreTrimmed(w: string)
    requires w in CategoryWords
    ensures |w| >= 2 && Trim(w) == w
  {
    assert !IsSpace(w[0]) && !IsSpace(w[|w| - 1]);
  }

  // ---------------------------------------------------------------------------
  // The operation

  /**
   * `extractKeywordAndCategory(message)`: the keyword and the category of the
   * lower-cased message, as the two search loops find them.
   */
  method ExtractKeywordAndCategory(message: string, keywordPatterns: seq<Matcher>, categoryPatterns: seq<Matcher>)
    returns (keyword: string, category: string)
    ensures keyword == KeywordOf(ToLower(message), keywordPatterns)
    ensures category == CategoryOf(ToLower(message), categoryPatterns)
  {
    var t := ToLower(message);
    keyword := FindCapturedKeyword(t, keywordPatterns);
    if keyword == "" {
      keyword := FindFallbackKeyword(Split(t));
    }
    category := FindCategory(t, categoryPatterns);
  }

  /** The keyword search loop over the capture patterns: the first capture, trimmed. */
  method FindCapturedKeyword(t: string, keywordPatterns: seq<Matcher>) returns (keyword: string)
    ensures keyword == CapturedKeyword(t, keywordPatterns)
  {
    keyword := "";
    var i := 0;
    while i < |keywordPatterns|
      invariant 0 <= i <= |keywordPatterns|
      invariant forall j :: 0 <= j < i ==> !Captures(keywordPatterns[j], t)
    {
      var m := keywordPatterns[i](t);
      if m.Some? && m.value != "" {
        FirstCapturingIs(keywordPatterns, t, i);
        keyword := Trim(m.value);
        return;
      }
      i := i + 1;
    }
  }

  /** The fallback loop over the split pieces: the first acceptable one. */
  method FindFallbackKeyword(words: seq<string>) returns (keyword: string)
    ensures keyword == FallbackKeyword(words)
  {
    keyword := "";
    var j := 0;
    while j < |words|
      invariant 0 <= j <= |words|
      invariant forall k :: 0 <= k < j ==> !IsKeywordCandidate(words[k])
    {
      if IsKeywordCandidate(words[j]) {
        FirstCandidateIs(words, j);
        keyword := words[j];
        return;
      }
      j := j + 1;
    }
  }

  /** The category search loop over the lower-cased text. */
  method FindCategory(t: string, categoryPatterns: seq<Matcher>) returns (category: string)
    ensures category == CategoryOf(t, categoryPatterns)
  {
    var found: Option<string> := None;
    var k := 0;
    while k < |categoryPatterns| && found.None?
      invariant 0 <= k <= |categoryPatterns|
      invariant found.None? ==> forall j :: 0 <= j < k ==> !Matches(categoryPatterns[j], t)
      invariant found.Some? ==> 0 < k && FirstMatching(categoryPatterns, t) == Some(k - 1) && found == categoryPatterns[k - 1](t)
    {
      found := categoryPatterns[k](t);
      k := k + 1;
    }
    if found.Some? {
      category := Trim(found.value);
      assert FirstMatching(categoryPatterns, t) == Some(k - 1);
    } else {
      assert FirstMatching(categoryPatterns, t) == None;
      category := FallbackCategory(t);
    }
  }

  /** The last category pattern, tried when the others fail: its match, trimmed, or nothing. */
  method FallbackCategory(t: string) returns (category: string)
    ensures category == match LeftmostCategoryWord(t) case Some(w) => w case None => ""
  {
    var found := LeftmostCategoryWord(t);
    category := "";
    if found.Some? {
      CategoryWordsAreTrimmed(found.value);
      category := Trim(found.value);
    }
  }
}
