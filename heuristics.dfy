/**
 * The bot's yes/no text tests: `isUserConfirming`, `isNewRequest` and
 * `analyzeFeedback`. Every pattern the source writes as a regular expression is
 * a literal word, an anchored literal, or an alternation of literals; each is
 * one `Pattern` here, in the source's order, and a test succeeds when SOME
 * pattern matches the lower-cased message (`patterns.some(p => p.test(t))`).
 */
module Heuristics {
  import opened Text

  /** One of the regular-expression shapes the bot uses. */
  datatype Pattern =
    | Exactly(word: string)               // /^word$/
    | Leading(word: string)               // /^word/
    | Anywhere(words: seq<string>)        // /(w1|w2|...)/, unanchored
    | Trailing(words: seq<string>)        // /(w1|w2|...)(，|。|！|\s)?$/

  /** The optional closing mark the confirming suffix pattern allows. */
  predicate IsClosingMark(c: char) {
    c == '，' || c == '。' || c == '！' || IsSpace(c)
  }

  /** `t` ends with `w`, or with `w` followed by one closing mark. */
  predicate EndsWithMarked(t: string, w: string) {
    EndsWith(t, w) || (|t| > 0 && IsClosingMark(t[|t| - 1]) && EndsWith(t[..|t| - 1], w))
  }

  predicate ContainsSome(t: string, words: seq<string>) {
    exists i :: 0 <= i < |words| && Contains(t, words[i])
  }

  /** `pattern.test(t)`. */
  predicate Test(p: Pattern, t: string) {
    match p
    case Exactly(w) => t == w
    case Leading(w) => StartsWith(t, w)
    case Anywhere(ws) => ContainsSome(t, ws)
    case Trailing(ws) => exists i :: 0 <= i < |ws| && EndsWithMarked(t, ws[i])
  }

  /** `patterns.some(p => p.test(t))`, trying the patterns in order. */
  function SomeMatches(ps: seq<Pattern>, t: string): (r: bool)
    ensures r <==> exists i :: 0 <= i < |ps| && Test(ps[i], t)
  {
    if ps == [] then false
    else if Test(ps[0], t) then true
    else
      var rest := SomeMatches(ps[1..], t);
      assert forall i :: 1 <= i < |ps| ==> ps[i] == ps[1..][i - 1];
      rest
  }

  /** A single literal word anywhere in the message, as in `/棒/`. */
  function Word(w: string): Pattern {
    Anywhere([w])
  }

  // ---------------------------------------------------------------------------
  // isUserConfirming

  /** The messages accepted when they are the whole (lower-cased) message. */
  const ConfirmWords: seq<string> :=
    ["是", "对", "确认", "没问题", "可以", "正确", "准确", "开始", "确定", "是的", "对的", "好的", "可以的", "没错"]

  /** `信息` followed by one of these, anywhere in the message, confirms. */
  const InfoConfirmations: seq<string> := ["信息正确", "信息准确", "信息没问题"]

  /** A message ending in one of these (plus an optional closing mark) confirms. */
  const ConfirmEndings: seq<string> := ["正确", "准确", "没问题", "可以"]

  const ConfirmPatterns: seq<Pattern> :=
    [Exactly("是"), Exactly("对"), Exactly("确认"), Exactly("没问题"), Exactly("可以"),
     Exactly("正确"), Exactly("准确"), Exactly("开始"), Exactly("确定"), Exactly("是的"),
     Exactly("对的"), Exactly("好的"), Exactly("可以的"), Exactly("没错"),
     Anywhere(InfoConfirmations), Trailing(ConfirmEndings)]

  /**
   * The confirmation gate. A message confirms exactly when, lower-cased, it is
   * one of the confirm words, contains an `信息…` confirmation, or ends in a
   * confirming word with at most one closing mark after it.
   */
  function IsUserConfirming(message: string): (r: bool)
    ensures var t := ToLower(message);
      r <==> (t in ConfirmWords
              || ContainsSome(t, InfoConfirmations)
              || exists i :: 0 <= i < |ConfirmEndings| && EndsWithMarked(t, ConfirmEndings[i]))
  {
    var t := ToLower(message);
    var r := SomeMatches(ConfirmPatterns, t);
    assert forall i :: 0 <= i < 14 ==> ConfirmPatterns[i] == Exactly(ConfirmWords[i]);
    assert ConfirmPatterns[14] == Anywhere(InfoConfirmations);
    assert ConfirmPatterns[15] == Trailing(ConfirmEndings);
    r
  }

  // ---------------------------------------------------------------------------
  // isNewRequest

  const NewRequestPrefixes: seq<string> :=
    ["我想", "我需要", "我要", "帮我", "请帮", "可以帮", "能帮", "制作", "创作", "生成", "做一个", "做一份"]

  const NewRequestPatterns: seq<Pattern> :=
    [Leading("我想"), Leading("我需要"), Leading("我要"), Leading("帮我"), Leading("请帮"),
     Leading("可以帮"), Leading("能帮"), Leading("制作"), Leading("创作"), Leading("生成"),
     Leading("做一个"), Leading("做一份")]

  /** A message opens a new request exactly when, lower-cased, it starts with one of the twelve prefixes. */
  function IsNewRequest(message: string): (r: bool)
    ensures r <==> exists i :: 0 <= i < |NewRequestPrefixes| && StartsWith(ToLower(message), NewRequestPrefixes[i])
  {
    var t := ToLower(message);
    var r := SomeMatches(NewRequestPatterns, t);
    assert forall i :: 0 <= i < 12 ==> NewRequestPatterns[i] == Leading(NewRequestPrefixes[i]);
    r
  }

  // ---------------------------------------------------------------------------
  // analyzeFeedback

  const PositiveWords: seq<string> :=
    ["不错", "很好", "满意", "喜欢", "棒", "赞", "感谢", "谢谢", "好看", "实用", "有用", "符合", "期待"]

  const NegativeWords: seq<string> :=
    ["不好", "不满意", "不喜欢", "不行", "差", "糟", "失望", "不符合", "不实用", "不准确", "不匹配"]

  const SuggestionWords: seq<string> :=
    ["希望", "建议", "可以更", "应该", "最好", "如果能", "下次", "改进", "提升", "增加", "减少", "优化"]

  function WordPatterns(ws: seq<string>): (ps: seq<Pattern>)
    ensures |ps| == |ws| && forall i :: 0 <= i < |ws| ==> ps[i] == Word(ws[i])
  {
    seq(|ws|, i requires 0 <= i < |ws| => Word(ws[i]))
  }

  /** The classification `analyzeFeedback` returns. */
  datatype Feedback = Feedback(isPositive: bool, isNegative: bool, hasSuggestion: bool, responseMessage: string)

  const PraiseReply := "我会继续保持这样的服务质量，为你提供优质的内容。"
  const ApologyReply := "非常抱歉没能满足你的期望，我会努力改进，下次为你提供更好的内容。"
  const MixedReply := "感谢你的肯定和建议，我会在保持优点的同时努力改进不足之处。"
  const NeutralReply := "我会记录你的反馈，不断优化我的服务。"
  const SuggestionNote := " 你的建议我已记录，这将帮助我在未来为你提供更符合期望的内容。"

  /** The base fragment chosen by the (positive, negative) truth table. */
  function ToneReply(positive: bool, negative: bool): string {
    if positive && !negative then PraiseReply
    else if negative && !positive then ApologyReply
    else if positive && negative then MixedReply
    else NeutralReply
  }

  /** No tone fragment already ends with the suggestion note. */
  lemma ToneLacksNote(positive: bool, negative: bool)
    ensures !EndsWith(ToneReply(positive, negative), SuggestionNote)
  {
    var tone := ToneReply(positive, negative);
    if |SuggestionNote| <= |tone| {
      assert tone == ApologyReply;
      assert tone[|tone| - |SuggestionNote|] != SuggestionNote[0];
    }
  }

  predicate Mentions(t: string, ws: seq<string>) {
    SomeMatches(WordPatterns(ws), t)
  }

  lemma MentionsIff(t: string, ws: seq<string>)
    ensures Mentions(t, ws) <==> ContainsSome(t, ws)
  {
    var ps := WordPatterns(ws);
    if ContainsSome(t, ws) {
      var i :| 0 <= i < |ws| && Contains(t, ws[i]);
      assert Test(ps[i], t) by { assert [ws[i]][0] == ws[i]; }
    }
    if Mentions(t, ws) {
      var i :| 0 <= i < |ps| && Test(ps[i], t);
      assert Contains(t, ws[i]) by { assert ps[i].words[0] == ws[i]; }
    }
  }

  /**
   * Each flag is an existence test over its word list, and the reply is
   * exactly one of the four tone fragments, followed by the suggestion note
   * exactly when a suggestion word occurs.
   */
  function AnalyzeFeedback(message: string): (r: Feedback)
    ensures var t := ToLower(message);
      && (r.isPositive <==> ContainsSome(t, PositiveWords))
      && (r.isNegative <==> ContainsSome(t, NegativeWords))
      && (r.hasSuggestion <==> ContainsSome(t, SuggestionWords))
    ensures StartsWith(r.responseMessage, ToneReply(r.isPositive, r.isNegative))
    ensures r.hasSuggestion <==> EndsWith(r.responseMessage, SuggestionNote)
    ensures |r.responseMessage| == |ToneReply(r.isPositive, r.isNegative)| + (if r.hasSuggestion then |SuggestionNote| else 0)
  {
    var t := ToLower(message);
    var isPositive := Mentions(t, PositiveWords);
    var isNegative := Mentions(t, NegativeWords);
    var hasSuggestion := Mentions(t, SuggestionWords);
    MentionsIff(t, PositiveWords);
    MentionsIff(t, NegativeWords);
    MentionsIff(t, SuggestionWords);
    var base := ToneReply(isPositive, isNegative);
    var responseMessage := if hasSuggestion then base + SuggestionNote else base;
    ToneLacksNote(isPositive, isNegative);
    assert hasSuggestion ==> responseMessage[|base|..] == SuggestionNote;
    assert StartsWith(responseMessage, base) by { assert responseMessage[..|base|] == base; }
    Feedback(isPositive, isNegative, hasSuggestion, responseMessage)
  }
}

/** What the three text tests do on particular messages, and what follows from their contracts. */
module HeuristicsFacts {
  import opened Text
  import opened Heuristics

  /** A plain "是的" ("yes") passes the gate. */
  lemma AffirmativeConfirms(m: string)
    requires m == "是的"
    ensures IsUserConfirming(m)
  {
    assert ToLower(m) == m;
    assert ConfirmWords[9] == m;
  }

  /** "不对，重新来" ("wrong, start over") does not. */
  lemma RejectionDoesNotConfirm(m: string)
    requires m == "不对，重新来"
    ensures !IsUserConfirming(m)
  {
    assert ToLower(m) == m;
    assert m !in ConfirmWords by { assert forall i :: 0 <= i < |ConfirmWords| ==> |ConfirmWords[i]| < |m|; }
    assert '信' !in m;
    forall i | 0 <= i < 3 ensures !Contains(m, InfoConfirmations[i]) {
      if Contains(m, InfoConfirmations[i]) {
        ContainsFirstChar(m, InfoConfirmations[i]);
      }
    }
    assert m[5] == '来' && m[4] == '新';
    forall i | 0 <= i < 4 ensures !EndsWithMarked(m, ConfirmEndings[i]) {
      var e := ConfirmEndings[i];
      assert e[|e| - 1] in "确题以";
      assert !IsClosingMark(m[5]);
    }
  }

  /**
   * The suffix test does not look at what precedes the confirming word, so a
   * negated answer such as "不正确" ("not correct") also passes the gate.
   */
  lemma NegatedAnswerConfirms(m: string)
    requires m == "不正确" || m == "信息不准确"
    ensures IsUserConfirming(m)
  {
    assert ToLower(m) == m;
    assert EndsWithMarked(m, ConfirmEndings[0]) || EndsWithMarked(m, ConfirmEndings[1]);
  }

  /** A request opening with "帮我" ("help me") starts over. */
  lemma HelpRequestIsNewRequest(m: string)
    requires m == "帮我做一个复古穿搭分享"
    ensures IsNewRequest(m)
  {
    assert ToLower(m) == m;
    assert StartsWith(m, NewRequestPrefixes[3]);
  }

  /** A thank-you in the ending stage is not a new request. */
  lemma ThanksIsNoNewRequest(m: string)
    requires m == "谢谢"
    ensures !IsNewRequest(m)
  {
    assert ToLower(m) == m;
    forall i | 0 <= i < |NewRequestPrefixes| ensures !StartsWith(m, NewRequestPrefixes[i]) {
      assert NewRequestPrefixes[i][0] in "我帮请可能制创生做";
    }
  }

  /** Responses are told apart by their tone fragment and by the suggestion note. */
  lemma ToneReplyInjective(p1: bool, n1: bool, p2: bool, n2: bool)
    requires ToneReply(p1, n1) == ToneReply(p2, n2)
    ensures p1 == p2 && n1 == n2
  {
    assert PraiseReply[2] != NeutralReply[2];
  }

  /**
   * The reply of `analyzeFeedback` encodes its classification: two messages
   * with the same reply have the same three flags.
   */
  lemma FeedbackReplyDeterminesFlags(m1: string, m2: string)
    requires AnalyzeFeedback(m1).responseMessage == AnalyzeFeedback(m2).responseMessage
    ensures AnalyzeFeedback(m1).isPositive == AnalyzeFeedback(m2).isPositive
    ensures AnalyzeFeedback(m1).isNegative == AnalyzeFeedback(m2).isNegative
    ensures AnalyzeFeedback(m1).hasSuggestion == AnalyzeFeedback(m2).hasSuggestion
  {
    var f1, f2 := AnalyzeFeedback(m1), AnalyzeFeedback(m2);
    var t1, t2 := ToneReply(f1.isPositive, f1.isNegative), ToneReply(f2.isPositive, f2.isNegative);
    assert f1.hasSuggestion == f2.hasSuggestion;
    assert |t1| == |t2|;
    assert t1 == f1.responseMessage[..|t1|] == t2;
    ToneReplyInjective(f1.isPositive, f1.isNegative, f2.isPositive, f2.isNegative);
  }

  /**
   * Four of the negative words are a positive word with 不 in front, so any
   * message holding one of them also counts as positive and gets the mixed
   * reply, never the apology.
   */
  lemma NegatedPraiseIsMixed(m: string, praise: string)
    requires praise in PositiveWords && "不" + praise in NegativeWords
    requires Contains(ToLower(m), "不" + praise)
    ensures AnalyzeFeedback(m).isPositive && AnalyzeFeedback(m).isNegative
  {
    var t := ToLower(m);
    ContainsMiddle("不", praise, "");
    assert "不" + praise + "" == "不" + praise;
    ContainsTransitive(t, "不" + praise, praise);
    var i :| 0 <= i < |PositiveWords| && PositiveWords[i] == praise;
    var j :| 0 <= j < |NegativeWords| && NegativeWords[j] == "不" + praise;
  }

  lemma DissatisfiedIsMixed(m: string)
    requires m == "不满意"
    ensures AnalyzeFeedback(m).isPositive && AnalyzeFeedback(m).isNegative
  {
    var praise := PositiveWords[2];
    assert NegativeWords[1] == m == "不" + praise;
    assert ToLower(m) == m;
    assert StartsWith(m, m);
    NegatedPraiseIsMixed(m, praise);
  }

  lemma DissatisfiedHasNoSuggestion(m: string)
    requires m == "不满意"
    ensures !AnalyzeFeedback(m).hasSuggestion
  {
    assert ToLower(m) == m;
    forall i | 0 <= i < |SuggestionWords| ensures !Contains(m, SuggestionWords[i]) {
      if Contains(m, SuggestionWords[i]) {
        ContainsFirstChar(m, SuggestionWords[i]);
      }
    }
  }

  /** "不满意" ("not satisfied") is answered with the mixed-tone reply. */
  lemma DissatisfiedGetsMixedReply(m: string)
    requires m == "不满意"
    ensures AnalyzeFeedback(m).responseMessage == MixedReply
  {
    DissatisfiedIsMixed(m);
    DissatisfiedHasNoSuggestion(m);
    var f := AnalyzeFeedback(m);
    assert f.responseMessage == f.responseMessage[..|MixedReply|] == MixedReply;
  }

  lemma PraiseWithWishIsNotNegative(m: string)
    requires m == "这个不错，但希望图片更好看"
    ensures !AnalyzeFeedback(m).isNegative
  {
    assert ToLower(m) == m;
    forall i | 0 <= i < |m| - 1 && m[i] == '不' ensures m[i + 1] == '错' {
    }
    forall k | 0 <= k < |NegativeWords| ensures !Contains(m, NegativeWords[k]) {
      var w := NegativeWords[k];
      if Contains(m, w) {
        if |w| >= 2 {
          ContainsFirstPair(m, w);
        } else {
          ContainsFirstChar(m, w);
        }
      }
    }
  }

  /**
   * Praise plus a wish is read as positive, not negative, with a
   * suggestion, and the reply is the praise fragment followed by the note.
   */
  lemma PraiseWithWishReply(m: string)
    requires m == "这个不错，但希望图片更好看"
    ensures AnalyzeFeedback(m).isPositive && AnalyzeFeedback(m).hasSuggestion
    ensures !AnalyzeFeedback(m).isNegative
    ensures AnalyzeFeedback(m).responseMessage == PraiseReply + SuggestionNote
  {
    PraiseWithWishIsNotNegative(m);
    var f := AnalyzeFeedback(m);
    assert f.isPositive by {
      assert ToLower(m) == m;
      assert OccursAt(m, PositiveWords[0], 2);
      ContainsIff(m, PositiveWords[0]);
    }
    assert f.hasSuggestion by {
      assert ToLower(m) == m;
      assert OccursAt(m, SuggestionWords[0], 6);
      ContainsIff(m, SuggestionWords[0]);
    }
    var r := f.responseMessage;
    assert r[..|PraiseReply|] == PraiseReply;
    assert r[|PraiseReply|..] == SuggestionNote;
    assert r == r[..|PraiseReply|] + r[|PraiseReply|..];
  }
}
