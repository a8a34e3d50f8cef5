/**
 * The mock generators behind the pipeline: tag lists, image roles, titles and
 * prose built from slot vocabularies, trending notes, the analysis and the
 * created content.
 *
 * Every `Math.random()` choice is a parameter with the range the code draws it
 * from (`Math.floor(Math.random() * n)` is a natural number below `n`); every
 * `generateUniqueId()` and every ISO timestamp is an opaque string parameter.
 * Long stretches of fixed prose are shortened to "…", keeping every
 * interpolated value in its place; slot vocabularies, short templates and the
 * analysis findings are exact.
 */
module Generators {
  import opened Text
  import opened State

  function Min(a: int, b: int): int {
    if a <= b then a else b
  }

  /** Every draw indexes a pool of `n` entries. */
  predicate DrawsFrom(draws: seq<nat>, n: nat) {
    forall i :: 0 <= i < |draws| ==> draws[i] < n
  }

  predicate Distinct(s: seq<string>) {
    forall i, j :: 0 <= i < j < |s| ==> s[i] != s[j]
  }

  // ---------------------------------------------------------------------------
  // Tags: `generateMockTags` and `generateCreativeTags`

  function BaseTags(keyword: string, category: string): seq<string> {
    [keyword, category, "好物分享", "经验分享", "达人推荐"]
  }

  const AdditionalTags: seq<string> := ["小红书", "种草", "好物", "推荐", "实用", "干货", "必入", "宝藏", "神器"]
  const EmotionalTags: seq<string> := ["治愈", "舒适", "惊艳", "实用", "高效", "省心", "省钱", "高颜值", "好用"]
  const DemographicTags: seq<string> := ["学生党", "上班族", "宝妈", "干皮", "油皮", "敏感肌", "新手", "达人", "博主"]

  /**
   * `tags` after a draw loop: each drawn pool entry is pushed unless the list
   * already holds it. The list only grows at the end, by at most one tag per
   * draw.
   */
  function Appended(tags: seq<string>, pool: seq<string>, draws: seq<nat>): (r: seq<string>)
    requires DrawsFrom(draws, |pool|)
    ensures |tags| <= |r| <= |tags| + |draws|
    ensures r[..|tags|] == tags
    decreases |draws|
  {
    if draws == [] then tags
    else
      var prior := Appended(tags, pool, draws[..|draws| - 1]);
      var tag := pool[draws[|draws| - 1]];
      if tag in prior then prior
      else
        assert (prior + [tag])[..|tags|] == prior[..|tags|];
        prior + [tag]
  }

  /** Every entry of `r` past the first `n` comes from the pool and does not occur before it. */
  predicate AddsOnlyFresh(r: seq<string>, n: nat, pool: seq<string>) {
    forall i :: n <= i < |r| ==> r[i] in pool && r[i] !in r[..i]
  }

  /** Every tag a draw loop adds comes from the pool and was not in the list before it. */
  lemma {:induction false} AppendedAddsOnlyFresh(tags: seq<string>, pool: seq<string>, draws: seq<nat>)
    requires DrawsFrom(draws, |pool|)
    ensures AddsOnlyFresh(Appended(tags, pool, draws), |tags|, pool)
    decreases |draws|
  {
    if draws != [] {
      var prior := Appended(tags, pool, draws[..|draws| - 1]);
      AppendedAddsOnlyFresh(tags, pool, draws[..|draws| - 1]);
      var tag := pool[draws[|draws| - 1]];
      if tag !in prior {
        var r := prior + [tag];
        assert Appended(tags, pool, draws) == r;
        forall i | |tags| <= i < |r| ensures r[i] in pool && r[i] !in r[..i] {
          if i < |prior| {
            assert r[i] == prior[i];
            assert r[..i] == prior[..i];
          } else {
            assert r[i] == tag;
            assert r[..i] == prior;
          }
        }
      }
    }
  }

  /** Every drawn entry ends up in the list, whether pushed or already there. */
  lemma {:induction false} AppendedHoldsEveryDraw(tags: seq<string>, pool: seq<string>, draws: seq<nat>)
    requires DrawsFrom(draws, |pool|)
    ensures forall k :: 0 <= k < |draws| ==> pool[draws[k]] in Appended(tags, pool, draws)
    decreases |draws|
  {
    if draws != [] {
      var front := draws[..|draws| - 1];
      AppendedHoldsEveryDraw(tags, pool, front);
      forall k | 0 <= k < |draws| - 1 ensures pool[draws[k]] in Appended(tags, pool, draws) {
        assert draws[k] == front[k];
      }
    }
  }

  /** A draw loop keeps a duplicate-free list duplicate-free. */
  lemma AppendedKeepsDistinct(tags: seq<string>, pool: seq<string>, draws: seq<nat>)
    requires DrawsFrom(draws, |pool|) && Distinct(tags)
    ensures Distinct(Appended(tags, pool, draws))
  {
    var r := Appended(tags, pool, draws);
    AppendedAddsOnlyFresh(tags, pool, draws);
    forall i, j | 0 <= i < j < |r| ensures r[i] != r[j] {
      if j < |tags| {
        assert r[i] == r[..|tags|][i] && r[j] == r[..|tags|][j];
      } else {
        assert r[..j][i] == r[i];
      }
    }
  }

  /** The draw loop as the code runs it. */
  method AppendAbsent(tags: seq<string>, pool: seq<string>, draws: seq<nat>) returns (r: seq<string>)
    requires DrawsFrom(draws, |pool|)
    ensures r == Appended(tags, pool, draws)
  {
    r := tags;
    for i := 0 to |draws|
      invariant r == Appended(tags, pool, draws[..i])
    {
      assert draws[..i + 1][..i] == draws[..i];
      var tag := pool[draws[i]];
      if tag !in r {
        r := r + [tag];
      }
    }
    assert draws[..|draws|] == draws;
  }

  /** The tags of a trending note: the base five, then three to five draws from the additional pool. */
  function MockTags(keyword: string, category: string, draws: seq<nat>): seq<string>
    requires DrawsFrom(draws, |AdditionalTags|)
  {
    Appended(BaseTags(keyword, category), AdditionalTags, draws)
  }

  method GenerateMockTags(keyword: string, category: string, draws: seq<nat>) returns (tags: seq<string>)
    requires 3 <= |draws| <= 5 && DrawsFrom(draws, |AdditionalTags|)
    ensures tags == MockTags(keyword, category, draws)
  {
    tags := AppendAbsent(BaseTags(keyword, category), AdditionalTags, draws);
  }

  /** The tags of created content: the base five, two or three emotional draws, one or two demographic draws. */
  function CreativeTags(keyword: string, category: string, emotional: seq<nat>, demographic: seq<nat>): seq<string>
    requires DrawsFrom(emotional, |EmotionalTags|) && DrawsFrom(demographic, |DemographicTags|)
  {
    Appended(Appended(BaseTags(keyword, category), EmotionalTags, emotional), DemographicTags, demographic)
  }

  method GenerateCreativeTags(keyword: string, category: string, emotional: seq<nat>, demographic: seq<nat>)
    returns (tags: seq<string>)
    requires 2 <= |emotional| <= 3 && DrawsFrom(emotional, |EmotionalTags|)
    requires 1 <= |demographic| <= 2 && DrawsFrom(demographic, |DemographicTags|)
    ensures tags == CreativeTags(keyword, category, emotional, demographic)
  {
    tags := AppendAbsent(BaseTags(keyword, category), EmotionalTags, emotional);
    tags := AppendAbsent(tags, DemographicTags, demographic);
  }

  /**
   * A note's tag list starts with the base five, holds five to ten tags, and
   * is free of duplicates when the base five are.
   */
  lemma MockTagsShape(keyword: string, category: string, draws: seq<nat>)
    requires |draws| <= 5 && DrawsFrom(draws, |AdditionalTags|)
    ensures var tags := MockTags(keyword, category, draws);
      && 5 <= |tags| <= 10
      && tags[..5] == BaseTags(keyword, category)
      && (Distinct(BaseTags(keyword, category)) ==> Distinct(tags))
  {
    if Distinct(BaseTags(keyword, category)) {
      AppendedKeepsDistinct(BaseTags(keyword, category), AdditionalTags, draws);
    }
  }

  /**
   * Created content's tag list starts with the base five, holds five to ten
   * tags, and is free of duplicates when the base five are.
   */
  lemma CreativeTagsShape(keyword: string, category: string, emotional: seq<nat>, demographic: seq<nat>)
    requires |emotional| <= 3 && DrawsFrom(emotional, |EmotionalTags|)
    requires |demographic| <= 2 && DrawsFrom(demographic, |DemographicTags|)
    ensures var tags := CreativeTags(keyword, category, emotional, demographic);
      && 5 <= |tags| <= 10
      && tags[..5] == BaseTags(keyword, category)
      && (Distinct(BaseTags(keyword, category)) ==> Distinct(tags))
  {
    var base := BaseTags(keyword, category);
    var middle := Appended(base, EmotionalTags, emotional);
    var tags := Appended(middle, DemographicTags, demographic);
    assert tags[..5] == tags[..|middle|][..5];
    if Distinct(base) {
      AppendedKeepsDistinct(base, EmotionalTags, emotional);
      AppendedKeepsDistinct(middle, DemographicTags, demographic);
    }
  }

  // ---------------------------------------------------------------------------
  // Image roles: `getImageType`

  /**
   * `getImageType(index, totalCount)`: the comparisons are with the real
   * quotients `totalCount / 3` and `totalCount * 2 / 3`.
   */
  function ImageType(index: nat, total: nat): (r: ImageRole)
    ensures r == Cover <==> index == 0
    ensures r == Product <==> 0 < index && 3 * index < total
    ensures r == Usage <==> 0 < index && total <= 3 * index < 2 * total
    ensures r == Effect <==> 0 < index && 2 * total <= 3 * index
  {
    if index == 0 then Cover
    else if (index as real) < (total as real) / 3.0 then Product
    else if (index as real) < (total as real) * 2.0 / 3.0 then Usage
    else Effect
  }

  function RoleRank(r: ImageRole): nat {
    match r
    case Cover => 0
    case Product => 1
    case Usage => 2
    case Effect => 3
  }

  /** Roles never go back along the image list: cover, then products, then usage, then effect. */
  lemma RolesInOrder(i: nat, j: nat, total: nat)
    requires i <= j
    ensures RoleRank(ImageType(i, total)) <= RoleRank(ImageType(j, total))
  {
  }

  /** With four or more images every role occurs. */
  lemma AllRolesOccur(total: nat)
    requires total >= 4
    ensures exists i :: 0 <= i < total && ImageType(i, total) == Product
    ensures exists i :: 0 <= i < total && ImageType(i, total) == Usage
    ensures exists i :: 0 <= i < total && ImageType(i, total) == Effect
  {
    assert ImageType(1, total) == Product;
    assert ImageType(total - 1, total) == Effect;
    var u := (total + 2) / 3;
    assert ImageType(u, total) == Usage;
  }

  function GeneratedRoles(total: nat): (roles: seq<ImageRole>)
    ensures |roles| == total
  {
    seq(total, i requires 0 <= i < total => ImageType(i, total))
  }

  /** The role lists for the image counts created content can have. */
  lemma RolesForCreatedCounts()
    ensures GeneratedRoles(5) == [Cover, Product, Usage, Usage, Effect]
    ensures GeneratedRoles(6) == [Cover, Product, Usage, Usage, Effect, Effect]
    ensures GeneratedRoles(7) == [Cover, Product, Product, Usage, Usage, Effect, Effect]
  {
  }

  const GeneratedImagePrefix := "https://example.com/generated_images/"

  /** The images of created content: one per id, 1080 by 1920, with its positional role. */
  function GeneratedImages(ids: seq<string>): (images: seq<Image>)
    ensures |images| == |ids|
    ensures |ids| >= 1 ==> images[0].role == Cover
    ensures forall i :: 0 < i < |images| ==> images[i].role != Cover
    ensures |ids| >= 3 ==> images[|ids| - 1].role == Effect
    ensures forall i :: 0 <= i < |images| ==> images[i].width == 1080 && images[i].height == 1920
  {
    seq(|ids|, i requires 0 <= i < |ids| => Image(GeneratedImagePrefix + ids[i] + ".jpg", ImageType(i, |ids|), 1080, 1920))
  }

  /** The image loop of `generateMockCreationResult`. */
  method GenerateImages(ids: seq<string>) returns (images: seq<Image>)
    ensures images == GeneratedImages(ids)
  {
    images := [];
    for i := 0 to |ids|
      invariant images == GeneratedImages(ids)[..i]
    {
      images := images + [Image(GeneratedImagePrefix + ids[i] + ".jpg", ImageType(i, |ids|), 1080, 1920)];
    }
  }

  const NoteImagePrefix := "https://example.com/images/"

  /** The image URLs of a note: for each id, the images prefix, the id and `.jpg`. */
  function NoteImageUrls(ids: seq<string>): (urls: seq<string>)
    ensures |urls| == |ids|
    ensures forall i :: 0 <= i < |ids| ==> urls[i] == NoteImagePrefix + ids[i] + ".jpg"
  {
    seq(|ids|, i requires 0 <= i < |ids| => NoteImagePrefix + ids[i] + ".jpg")
  }

  /** `generateMockImageUrls`: the URL loop, one URL pushed per id. */
  method GenerateMockImageUrls(ids: seq<string>) returns (urls: seq<string>)
    ensures urls == NoteImageUrls(ids)
  {
    urls := [];
    for i := 0 to |ids|
      invariant urls == NoteImageUrls(ids)[..i]
    {
      urls := urls + [NoteImagePrefix + ids[i] + ".jpg"];
    }
  }

  // ---------------------------------------------------------------------------
  // Slot vocabularies

  const Verbs: seq<string> := ["变美", "改变", "提升", "解决", "搞定", "治愈", "修复", "改善", "告别", "拯救"]
  const Adjectives: seq<string> :=
    ["超级", "绝对", "真的", "超乎想象的", "意想不到的", "神奇的", "惊艳的", "令人惊喜的", "不可思议的", "治愈系"]
  const ResultPhrases: seq<string> :=
    ["效果惊人", "太赞了", "真的绝了", "回购无数次", "用了就离不开", "真的太好用了", "强烈推荐", "必入清单", "人手必备", "太值了"]
  const TimeFrames: seq<string> :=
    ["这个月", "最近半年", "过去一年", "三个月来", "这段时间", "一周内", "半个月来", "这个季节", "换季期间", "最近"]
  const Prefixes: seq<string> := ["超实用", "必入", "平价", "高效", "一秒", "懒人", "新手", "专业", "隐藏", "小众"]
  const Suffixes: seq<string> :=
    ["效果惊人", "人人都能学会", "新手也能上手", "省时又省力", "真的太赞了", "学会就能用一辈子", "一看就会", "太实用了", "绝对值得一试", "回购无数次"]
  const Questions: seq<string> := ["为什么", "如何", "怎样", "谁说", "你知道吗", "想不想", "还在为", "是不是", "有没有", "需不需要"]
  const Answers: seq<string> :=
    ["试试这个就知道了", "看完你就明白了", "学会这几招就够了", "答案在这里", "方法都在这了", "一篇文章告诉你", "太简单了", "其实很简单", "这篇笔记告诉你", "看完秒懂"]
  const Experiences: seq<string> := ["研究", "使用", "体验", "测评", "关注", "痴迷", "热爱", "专注", "沉迷", "钻研"]
  const Problems: seq<string> := ["困扰", "烦恼", "问题", "痛点", "难题", "挑战", "麻烦", "纠结", "不适", "不满"]
  const Solutions: seq<string> :=
    ["完美解决", "彻底改善", "显著提升", "明显改变", "有效缓解", "成功克服", "轻松搞定", "完全告别", "全面提高", "根本改变"]
  const Ingredients: seq<string> := ["维生素C", "玻尿酸", "烟酰胺", "水杨酸", "视黄醇", "神经酰胺", "果酸", "氨基酸", "胶原蛋白", "积雪草"]
  const Frequencies: seq<string> :=
    ["每天早晚各一次", "每周2-3次", "每天使用一次", "隔天使用一次", "每周使用一次", "每天使用2-3次", "根据肌肤状态灵活使用", "连续使用一周后间隔使用", "早上使用", "晚上使用"]
  const Preparations: seq<string> :=
    ["清洁面部", "用温水洗脸", "做好基础保湿", "使用爽肤水", "轻拍面部提升吸收力", "按摩促进血液循环", "使用导入仪", "敷一片面膜", "用化妆棉湿敷", "做好防晒"]
  const Attentions: seq<string> :=
    ["使用顺序", "产品相克性", "适量使用", "按摩手法", "使用时机", "保存方法", "产品新鲜度", "肌肤反应", "季节变化调整", "个人体质差异"]
  const ProblemDetails: seq<string> :=
    ["使用后刺痛", "出现红疹", "效果不明显", "使用感不佳", "起泡沫", "搓泥", "过敏反应", "干燥紧绷", "油腻感", "不吸收"]
  const SolutionDetails: seq<string> :=
    ["减少使用频率", "与其他产品间隔使用", "更换使用方法", "调整使用量", "添加辅助产品", "更换使用时间", "结合其他技巧", "咨询专业人士", "查看成分是否相克", "测试是否过敏"]
  const MainPointTitles: seq<seq<string>> := [
    ["首先", "第一步", "基础准备", "开始之前", "先决条件"],
    ["接着", "第二步", "核心技巧", "关键环节", "重要发现"],
    ["然后", "第三步", "进阶方法", "实用技巧", "惊喜发现"],
    ["最后", "第四步", "终极秘诀", "完美收尾", "锦上添花"]
  ]

  // ---------------------------------------------------------------------------
  // Titles

  /**
   * The draws a title template can use: a count (`* 10`, shown plus one), an
   * ordinal (`* 5`, shown plus three) and two vocabulary picks.
   */
  datatype TitleDraws = TitleDraws(count: nat, ordinal: nat, first: nat, second: nat)

  predicate TitleDrawsFit(d: TitleDraws) {
    d.count < 10 && d.ordinal < 5 && d.first < 10 && d.second < 10
  }

  /** `generateMockTitle(keyword, category, index)`: seven templates, chosen by `index % 7`. */
  function MockTitle(keyword: string, category: string, index: nat, d: TitleDraws): string
    requires TitleDrawsFit(d)
  {
    Interpolate(MockTitlePieces(keyword, category, index, d))
  }

  function MockTitlePieces(keyword: string, category: string, index: nat, d: TitleDraws): seq<string>
    requires TitleDrawsFit(d)
  {
    match index % 7
    case 0 => [keyword, "必入！这", Decimal(d.ordinal + 3), "款", category, "真的绝了"]
    case 1 => ["谁说", keyword, "不能", Verbs[d.first], "？试试这个就知道了！"]
    case 2 => [Adjectives[d.first], keyword, category, "，", ResultPhrases[d.second]]
    case 3 => [Decimal(d.count + 1), "个", keyword, category, "小技巧，第", Decimal(d.ordinal + 3), "个太惊艳了"]
    case 4 => [TimeFrames[d.first], "我只用这款", keyword, category, "，效果", Adjectives[d.second]]
    case 5 => [Prefixes[d.first], keyword, category, "分享，", Suffixes[d.second]]
    case _ => [Questions[d.first], keyword, category, "？", Answers[d.second]]
  }

  /** Every mock title names the keyword, and all but the second template name the category too. */
  lemma MockTitleMentions(keyword: string, category: string, index: nat, d: TitleDraws)
    requires TitleDrawsFit(d)
    ensures Contains(MockTitle(keyword, category, index, d), keyword)
    ensures index % 7 != 1 ==> Contains(MockTitle(keyword, category, index, d), category)
  {
    var pieces := MockTitlePieces(keyword, category, index, d);
    match index % 7
    case 0 =>
      InterpolateContainsPieces(pieces, 0);
      InterpolateContainsPieces(pieces, 4);
    case 1 =>
      InterpolateContainsPieces(pieces, 1);
    case 3 =>
      InterpolateContainsPieces(pieces, 2);
      InterpolateContainsPieces(pieces, 3);
    case 4 =>
      InterpolateContainsPieces(pieces, 2);
      InterpolateContainsPieces(pieces, 3);
    case _ =>
      InterpolateContainsPieces(pieces, 1);
      InterpolateContainsPieces(pieces, 2);
  }

  function Problem(keyword: string, pick: nat): string
    requires pick < 10
  {
    keyword + Problems[pick]
  }

  function Solution(keyword: string, pick: nat): string
    requires pick < 10
  {
    keyword + Solutions[pick]
  }

  /** `generateCreativeTitle`: five templates, one drawn at random. */
  function CreativeTitle(keyword: string, category: string, pick: nat, d: TitleDraws): string
    requires pick < 5 && TitleDrawsFit(d)
  {
    Interpolate(CreativeTitlePieces(keyword, category, pick, d))
  }

  function CreativeTitlePieces(keyword: string, category: string, pick: nat, d: TitleDraws): seq<string>
    requires pick < 5 && TitleDrawsFit(d)
  {
    match pick
    case 0 => [keyword, "救星！这", Decimal(d.ordinal + 3), "款", category, "让你告别", Problem(keyword, d.first)]
    case 1 =>
      ["我的", keyword, category, "心得：从", Problem(keyword, d.first), "到", Solution(keyword, d.second),
       "只需", Decimal(d.count + 1), "天"]
    case 2 => [Prefixes[d.first], keyword, category, "指南，", Suffixes[d.second]]
    case 3 => [Decimal(d.count + 1), "个", keyword, category, "秘诀，第", Decimal(d.ordinal + 3), "个太惊艳了！"]
    case _ => [Questions[d.first], keyword, category, "？", Answers[d.second]]
  }

  /** Every creative title names both the keyword and the category. */
  lemma CreativeTitleMentions(keyword: string, category: string, pick: nat, d: TitleDraws)
    requires pick < 5 && TitleDrawsFit(d)
    ensures Contains(CreativeTitle(keyword, category, pick, d), keyword)
    ensures Contains(CreativeTitle(keyword, category, pick, d), category)
  {
    var pieces := CreativeTitlePieces(keyword, category, pick, d);
    match pick
    case 0 =>
      InterpolateContainsPieces(pieces, 0);
      InterpolateContainsPieces(pieces, 4);
    case 3 =>
      InterpolateContainsPieces(pieces, 2);
      InterpolateContainsPieces(pieces, 3);
    case _ =>
      InterpolateContainsPieces(pieces, 1);
      InterpolateContainsPieces(pieces, 2);
  }

  // ---------------------------------------------------------------------------
  // Prose

  /** The draws the prose of one piece of content can use. */
  datatype ProseDraws = ProseDraws(
    intro: nat,
    introTimeFrame: nat,
    experienceTimeFrame: nat,
    experience: nat,
    problem: nat,
    pointTitles: seq<nat>,
    ingredient: nat,
    frequency: nat,
    preparation: nat,
    attention: nat,
    problemDetail: nat,
    solutionDetail: nat,
    conclusion: nat)

  predicate ProseDrawsFit(d: ProseDraws) {
    && d.intro < 5 && d.conclusion < 5
    && d.introTimeFrame < 10 && d.experienceTimeFrame < 10 && d.experience < 10 && d.problem < 10
    && |d.pointTitles| == 4 && DrawsFrom(d.pointTitles, 5)
    && d.ingredient < 10 && d.frequency < 10 && d.preparation < 10
    && d.attention < 10 && d.problemDetail < 10 && d.solutionDetail < 10
  }

  /** `getRandomExperience`: a time frame followed by an activity. */
  function Experience(d: ProseDraws): string
    requires ProseDrawsFit(d)
  {
    TimeFrames[d.experienceTimeFrame] + Experiences[d.experience]
  }

  /** `getRandomIntro`: five templates. */
  function Intro(keyword: string, category: string, d: ProseDraws): string
    requires ProseDrawsFit(d)
  {
    [
      "相信很多小伙伴和我一样，都被" + keyword + "问题困扰过。今天我就来分享一下我的" + category + "经验，希望能帮到大家！",
      TimeFrames[d.introTimeFrame] + "我一直在研究" + keyword + "的" + category + "方法，终于找到了一些真正有效的技巧，…",
      "作为一个" + keyword + category + "达人，我试过市面上各种各样的方法，今天就来分享那些真正有效的经验！",
      "还在为" + keyword + "问题烦恼吗？这篇" + category + "笔记可能会改变你的生活！",
      keyword + category + "其实没有那么难，掌握了正确方法，人人都能做到！今天就来分享我的心得。"
    ][d.intro]
  }

  /**
   * `getRandomMainPointTitle(index)`: row `index - 1` of the title table, the
   * last row for any index past it. Callers pass 1 to 4; an index below 1
   * would read before the table.
   */
  function MainPointTitle(index: int, pick: nat): string
    requires index >= 1 && pick < 5
  {
    MainPointTitles[Min(index - 1, |MainPointTitles| - 1)][pick]
  }

  /** `getRandomDetailedPoint(keyword, category, index)`: four templates, clamped like the titles. */
  function DetailedPoint(keyword: string, category: string, index: int, d: ProseDraws): string
    requires index >= 1 && ProseDrawsFit(d)
  {
    var details := [
      "首先要选择适合自己的" + keyword + "产品，不要盲目跟风。我推荐选择含有" + Ingredients[d.ingredient] + "的产品，效果会更好。",
      "正确的使用方法非常重要，建议" + Frequencies[d.frequency] + "使用，每次使用前先" + Preparations[d.preparation] + "，这样效果会更好。",
      "在" + keyword + category + "过程中，一定要注意" + Attentions[d.attention] + "，…",
      "如果遇到" + keyword + ProblemDetails[d.problemDetail] + "，不要着急，可以尝试" + SolutionDetails[d.solutionDetail] + "，通常能很快解决问题。"
    ];
    details[Min(index - 1, |details| - 1)]
  }

  /**
   * `getRandomMainPoint(keyword, category, index)`: four templates, clamped
   * like the titles; the n-th template embeds the n-th detailed point.
   */
  function MainPoint(keyword: string, category: string, index: int, d: ProseDraws): string
    requires index >= 1 && ProseDrawsFit(d)
  {
    var points := [
      "在开始" + keyword + category + "之前，我们需要了解一些基本知识。" + DetailedPoint(keyword, category, 1, d) + "这样才能为后面的步骤打好基础。",
      keyword + category + "的核心在于" + DetailedPoint(keyword, category, 2, d) + "很多人往往忽略了这一点，导致效果不佳。",
      "掌握了基础后，我们可以尝试一些进阶技巧。" + DetailedPoint(keyword, category, 3, d) + "这些小技巧往往能起到意想不到的效果。",
      "最后，分享一个我的独家秘诀：" + DetailedPoint(keyword, category, 4, d) + "这是我经过无数次尝试总结出来的，…"
    ];
    points[Min(index - 1, |points| - 1)]
  }

  /** The three index-clamped pickers treat every index past four as four. */
  lemma PickersClamp(keyword: string, category: string, index: int, pick: nat, d: ProseDraws)
    requires index >= 4 && pick < 5 && ProseDrawsFit(d)
    ensures MainPointTitle(index, pick) == MainPointTitle(4, pick) == MainPointTitles[3][pick]
    ensures DetailedPoint(keyword, category, index, d) == DetailedPoint(keyword, category, 4, d)
    ensures MainPoint(keyword, category, index, d) == MainPoint(keyword, category, 4, d)
  {
  }

  /** `getRandomConclusion`: five templates. */
  function Conclusion(keyword: string, category: string, d: ProseDraws): string
    requires ProseDrawsFit(d)
  {
    [
      "以上就是我关于" + keyword + category + "的全部分享，希望能对你有所帮助！…",
      "总的来说，" + keyword + category + "并不复杂，掌握了正确的方法，坚持下去，一定会看到明显的效果。…",
      keyword + category + "的道路上，每个人都可能遇到不同的问题，…",
      "最后想说，" + keyword + category + "没有绝对的标准答案，最重要的是找到适合自己的方法。…",
      "感谢你看到这里！" + keyword + category + "是一个需要不断学习和尝试的过程，…"
    ][d.conclusion]
  }

  const ContentOpening := "大家好呀！今天给大家分享一篇关于"

  /** `generateMockContent`: the body of a trending note. */
  function MockContent(keyword: string, category: string, d: ProseDraws): string
    requires ProseDrawsFit(d)
  {
    ContentHead(ContentOpening, keyword, category) + MockContentBody(keyword, category, d)
  }

  /** The opening line of a body of content, up to the category. */
  function ContentHead(opening: string, keyword: string, category: string): string {
    opening + keyword + "的" + category
  }

  function MockContentBody(keyword: string, category: string, d: ProseDraws): string
    requires ProseDrawsFit(d)
  {
    "。\n\n最近发现很多小伙伴都在问关于" + keyword
      + "的问题，作为一个" + Experience(d) + keyword + "的人，我决定来分享一下我的心得体会。\n\n"
      + Intro(keyword, category, d) + "\n\n"
      + MainPoint(keyword, category, 1, d) + "\n\n"
      + MainPoint(keyword, category, 2, d) + "\n\n"
      + MainPoint(keyword, category, 3, d) + "\n\n"
      + Conclusion(keyword, category, d) + "\n\n如果你也喜欢这篇内容，别忘了点赞收藏加关注哦！…"
  }

  const CreativeOpening := "大家好！今天给大家带来一篇关于"

  /** `generateCreativeContent`: an intro, four titled main points and a conclusion. */
  function CreativeContent(keyword: string, category: string, d: ProseDraws): string
    requires ProseDrawsFit(d)
  {
    ContentHead(CreativeOpening, keyword, category) + CreativeContentBody(keyword, category, d)
  }

  function CreativeContentBody(keyword: string, category: string, d: ProseDraws): string
    requires ProseDrawsFit(d)
  {
    "分享。\n\n"
      + Intro(keyword, category, d) + "\n\n作为一个" + Experience(d) + keyword + "的人，…希望能帮到同样被"
      + Problem(keyword, d.problem) + "困扰的小伙伴们。\n\n"
      + "【" + MainPointTitle(1, d.pointTitles[0]) + "】\n" + MainPoint(keyword, category, 1, d) + "\n\n"
      + "【" + MainPointTitle(2, d.pointTitles[1]) + "】\n" + MainPoint(keyword, category, 2, d) + "\n\n"
      + "【" + MainPointTitle(3, d.pointTitles[2]) + "】\n" + MainPoint(keyword, category, 3, d) + "\n\n"
      + "【" + MainPointTitle(4, d.pointTitles[3]) + "】\n" + MainPoint(keyword, category, 4, d) + "\n\n"
      + Conclusion(keyword, category, d) + "\n\n以上就是我的" + keyword + category + "分享，…记得点赞收藏加关注，我会持续分享更多"
      + keyword + "相关的内容！"
  }

  /** Content opens by naming the keyword and the category, so it contains both. */
  lemma ContentHeadMentions(opening: string, keyword: string, category: string, body: string)
    ensures StartsWith(ContentHead(opening, keyword, category) + body, opening + keyword)
    ensures Contains(ContentHead(opening, keyword, category) + body, keyword)
    ensures Contains(ContentHead(opening, keyword, category) + body, category)
  {
    var s := ContentHead(opening, keyword, category) + body;
    assert s == opening + keyword + ("的" + category + body);
    assert s[..|opening + keyword|] == opening + keyword;
    ContainsMiddle(opening, keyword, "的" + category + body);
    assert s == (opening + keyword + "的") + category + body;
    ContainsMiddle(opening + keyword + "的", category, body);
  }

  /** Both kinds of content name the keyword and the category in their first line. */
  lemma ContentMentions(keyword: string, category: string, d: ProseDraws)
    requires ProseDrawsFit(d)
    ensures Contains(MockContent(keyword, category, d), keyword) && Contains(MockContent(keyword, category, d), category)
    ensures Contains(CreativeContent(keyword, category, d), keyword) && Contains(CreativeContent(keyword, category, d), category)
  {
    ContentHeadMentions(ContentOpening, keyword, category, MockContentBody(keyword, category, d));
    ContentHeadMentions(CreativeOpening, keyword, category, CreativeContentBody(keyword, category, d));
  }

  // ---------------------------------------------------------------------------
  // Trending notes

  const CommentTemplates: seq<string> := [
    "太实用了，收藏了！", "这个真的好用，我已经入手了", "感谢分享，正好需要这个", "请问在哪里可以买到呢？",
    "效果真的像你说的那么好吗？", "我用了一周了，效果确实不错", "包装看起来很精致，想入手", "价格是多少呀？",
    "这个适合敏感肌吗？", "我之前用过类似的，但没这么好用"
  ]
  const NamePrefixes: seq<string> := ["小", "大", "甜", "酷", "美", "潮", "萌", "酷", "闪", "亮"]
  const NameMiddles: seq<string> := ["白", "黑", "红", "绿", "蓝", "紫", "橙", "粉", "灰", "棕"]
  const NameSuffixes: seq<string> := ["兔", "猫", "狗", "鱼", "鸟", "熊", "鹿", "象", "狐", "豹"]

  datatype CommentDraws = CommentDraws(userId: string, pick: nat)

  /** `用户` followed by the first six characters of a fresh id, and a drawn template. */
  function MockComment(d: CommentDraws): (c: Comment)
    requires d.pick < |CommentTemplates|
    ensures StartsWith(c.user, "用户") && |c.user| <= 8
    ensures c.content in CommentTemplates
  {
    Comment("用户" + d.userId[..Min(6, |d.userId|)], CommentTemplates[d.pick])
  }

  predicate CommentDrawsFit(draws: seq<CommentDraws>) {
    forall i :: 0 <= i < |draws| ==> draws[i].pick < |CommentTemplates|
  }

  function MockComments(draws: seq<CommentDraws>): (comments: seq<Comment>)
    requires CommentDrawsFit(draws)
    ensures |comments| == |draws|
  {
    seq(|draws|, i requires 0 <= i < |draws| => MockComment(draws[i]))
  }

  /** `generateMockComments(count)`: one comment per draw. */
  method GenerateMockComments(draws: seq<CommentDraws>) returns (comments: seq<Comment>)
    requires CommentDrawsFit(draws)
    ensures comments == MockComments(draws)
  {
    comments := [];
    for i := 0 to |draws|
      invariant comments == MockComments(draws)[..i]
    {
      comments := comments + [MockComment(draws[i])];
    }
  }

  /** `generateMockAuthorName`: one character from each of three pools. */
  function AuthorName(prefix: nat, middle: nat, suffix: nat): (name: string)
    requires prefix < 10 && middle < 10 && suffix < 10
    ensures |name| == 3
    ensures name[0] == NamePrefixes[prefix][0] && name[1] == NameMiddles[middle][0] && name[2] == NameSuffixes[suffix][0]
  {
    NamePrefixes[prefix] + NameMiddles[middle] + NameSuffixes[suffix]
  }

  /** Everything one trending note draws. */
  datatype NoteDraws = NoteDraws(
    noteId: string,
    title: TitleDraws,
    authorId: string,
    namePrefix: nat,
    nameMiddle: nat,
    nameSuffix: nat,
    followers: nat,
    publishTime: string,
    prose: ProseDraws,
    imageIds: seq<string>,
    tags: seq<nat>,
    likes: nat,
    collects: nat,
    comments: nat,
    topComments: seq<CommentDraws>)

  predicate NoteDrawsFit(d: NoteDraws) {
    && TitleDrawsFit(d.title)
    && d.namePrefix < 10 && d.nameMiddle < 10 && d.nameSuffix < 10
    && d.followers < 50000
    && ProseDrawsFit(d.prose)
    && 3 <= |d.imageIds| <= 6
    && 3 <= |d.tags| <= 5 && DrawsFrom(d.tags, |AdditionalTags|)
    && d.likes < 5000 && d.collects < 2000 && d.comments < 500
    && |d.topComments| == 3 && CommentDrawsFit(d.topComments)
  }

  predicate AllNoteDrawsFit(draws: seq<NoteDraws>) {
    forall i :: 0 <= i < |draws| ==> NoteDrawsFit(draws[i])
  }

  /** The `index`-th note of `generateMockTrendingNotes`. */
  function MockNote(keyword: string, category: string, index: nat, d: NoteDraws): TrendingNote
    requires NoteDrawsFit(d)
  {
    TrendingNote(
      "note" + d.noteId,
      MockTitle(keyword, category, index, d.title),
      Author("user" + d.authorId, AuthorName(d.namePrefix, d.nameMiddle, d.nameSuffix), d.followers + 1000),
      d.publishTime,
      category,
      MockContent(keyword, category, d.prose),
      NoteImageUrls(d.imageIds),
      MockTags(keyword, category, d.tags),
      Engagement(d.likes + 1000, d.collects + 500, d.comments + 50, MockComments(d.topComments)))
  }

  function MockNotes(keyword: string, category: string, draws: seq<NoteDraws>): (notes: seq<TrendingNote>)
    requires AllNoteDrawsFit(draws)
    ensures |notes| == |draws|
  {
    seq(|draws|, i requires 0 <= i < |draws| => MockNote(keyword, category, i, draws[i]))
  }

  /** `generateMockTrendingNotes(keyword, category, count)`: one note per draw, built field by field. */
  method GenerateMockTrendingNotes(keyword: string, category: string, draws: seq<NoteDraws>)
    returns (notes: seq<TrendingNote>)
    requires AllNoteDrawsFit(draws)
    ensures notes == MockNotes(keyword, category, draws)
  {
    notes := [];
    for i := 0 to |draws|
      invariant notes == MockNotes(keyword, category, draws)[..i]
    {
      var note := GenerateMockNote(keyword, category, i, draws[i]);
      notes := notes + [note];
    }
  }

  /** The body of the note loop: one note, built field by field. */
  method GenerateMockNote(keyword: string, category: string, i: nat, d: NoteDraws) returns (note: TrendingNote)
    requires NoteDrawsFit(d)
    ensures note == MockNote(keyword, category, i, d)
  {
    var images := GenerateMockImageUrls(d.imageIds);
    var tags := GenerateMockTags(keyword, category, d.tags);
    var comments := GenerateMockComments(d.topComments);
    note := TrendingNote(
      "note" + d.noteId,
      MockTitle(keyword, category, i, d.title),
      Author("user" + d.authorId, AuthorName(d.namePrefix, d.nameMiddle, d.nameSuffix), d.followers + 1000),
      d.publishTime,
      category,
      MockContent(keyword, category, d.prose),
      images,
      tags,
      Engagement(d.likes + 1000, d.collects + 500, d.comments + 50, comments));
  }

  /**
   * What every generated note promises: the requested category, a title that
   * names the keyword, three to six images, tags opening with the base five,
   * engagement counts in their ranges and three top comments.
   */
  lemma MockNoteShape(keyword: string, category: string, index: nat, d: NoteDraws)
    requires NoteDrawsFit(d)
    ensures var n := MockNote(keyword, category, index, d);
      && n.category == category
      && Contains(n.title, keyword)
      && 3 <= |n.images| <= 6
      && 5 <= |n.tags| <= 10 && n.tags[..5] == BaseTags(keyword, category)
      && (Distinct(BaseTags(keyword, category)) ==> Distinct(n.tags))
      && 1000 <= n.author.followers < 51000
      && 1000 <= n.engagement.likes < 6000
      && 500 <= n.engagement.collects < 2500
      && 50 <= n.engagement.comments < 550
      && |n.engagement.topComments| == 3
  {
    MockTitleMentions(keyword, category, index, d.title);
    MockTagsShape(keyword, category, d.tags);
  }

  // ---------------------------------------------------------------------------
  // Analysis: `generateMockAnalysisResult`

  /** Which of the four finding sets the category selects. */
  datatype FindingsKind = ReviewFindings | TutorialFindings | SharingFindings | GeneralFindings

  /** The category tests, in the order the code makes them. */
  function FindingsKindOf(category: string): FindingsKind {
    if Contains(category, "测评") || Contains(category, "推荐") then ReviewFindings
    else if Contains(category, "教程") || Contains(category, "技巧") then TutorialFindings
    else if Contains(category, "分享") || Contains(category, "心得") then SharingFindings
    else GeneralFindings
  }

  /** The numbers a finding set interpolates, each from its own range (see `FindingDrawsFit`). */
  datatype FindingDraws = FindingDraws(first: nat, second: nat, third: nat, fourth: nat, fifth: nat)

  predicate FindingDrawsFit(kind: FindingsKind, d: FindingDraws) {
    match kind
    case ReviewFindings => d.first < 2 && d.second < 2 && d.third < 300 && d.fourth < 300
    case TutorialFindings => d.first < 5 && d.second < 3 && d.third < 3 && d.fourth < 300 && d.fifth < 300
    case SharingFindings => d.first < 10 && d.second < 2 && d.third < 2 && d.fourth < 300 && d.fifth < 300
    case GeneralFindings => d.first < 3
  }

  function KeyFindings(kind: FindingsKind, keyword: string, d: FindingDraws): (findings: seq<string>)
    requires FindingDrawsFit(kind, d)
    ensures |findings| == 4
  {
    match kind
    case ReviewFindings => [
      "标题多采用\"" + keyword + "必入\"、\"拯救" + keyword + "\"等吸引眼球的表达",
      "图片以产品实拍+使用效果对比为主，平均" + Decimal(d.first + 5) + "-" + Decimal(d.second + 7) + "张图片",
      "文案结构通常为：痛点描述→产品介绍→使用体验→效果展示→总结推荐",
      "高互动笔记平均字数在" + Decimal(d.third + 800) + "-" + Decimal(d.fourth + 1100) + "字之间"
    ]
    case TutorialFindings => [
      "标题多采用数字列表形式，如\"" + Decimal(d.first + 5) + "个" + keyword + "小技巧\"",
      "图片以步骤展示为主，每个步骤配1-2张图片，总计" + Decimal(d.second + 6) + "-" + Decimal(d.third + 9) + "张",
      "文案结构通常为：问题引入→方法列举→步骤详解→效果展示→经验总结",
      "高互动笔记多使用序号和小标题，增强可读性，平均字数" + Decimal(d.fourth + 900) + "-" + Decimal(d.fifth + 1200) + "字"
    ]
    case SharingFindings => [
      "标题多采用个人经历+发现的形式，如\"" + TimeFrames[d.first] + "我的" + keyword + "心得\"",
      "图片以真实场景和个人使用为主，平均" + Decimal(d.second + 4) + "-" + Decimal(d.third + 6) + "张图片",
      "文案结构通常为：个人经历→问题描述→解决方案→变化过程→心得体会",
      "高互动笔记语言风格亲切自然，多使用第一人称，平均字数" + Decimal(d.fourth + 700) + "-" + Decimal(d.fifth + 1000) + "字"
    ]
    case GeneralFindings => [
      "标题多采用疑问句或感叹句，增强互动性和吸引力",
      "图片数量平均为" + Decimal(d.first + 5) + "张，多采用高清实拍图",
      "文案结构清晰，段落分明，通常包含引言、主体、总结三部分",
      "高互动笔记多在文末添加互动引导，如提问或号召行动"
    ]
  }

  const SuccessFactors: seq<string> := ["真实的个人体验分享", "清晰的前后效果对比", "详细的使用步骤和感受", "解决特定痛点的实用建议"]

  function NoteIds(notes: seq<TrendingNote>): (ids: seq<string>)
    ensures |ids| == |notes|
  {
    seq(|notes|, i requires 0 <= i < |notes| => notes[i].id)
  }

  datatype AnalysisDraws = AnalysisDraws(analysisId: string, timestamp: string, findings: FindingDraws)

  /**
   * The analysis of the collected notes: four findings chosen by the category,
   * the ids of the notes it read, in order, and the four fixed success factors.
   */
  function MockAnalysisResult(keyword: string, category: string, notes: seq<TrendingNote>, d: AnalysisDraws): (a: AnalysisResult)
    requires FindingDrawsFit(FindingsKindOf(category), d.findings)
    ensures |a.keyFindings| == 4 && |a.successFactors| == 4
    ensures |a.sourceNotes| == |notes| && forall i :: 0 <= i < |notes| ==> a.sourceNotes[i] == notes[i].id
    ensures a.keyFindings == KeyFindings(FindingsKindOf(category), keyword, d.findings)
  {
    AnalysisResult(
      "analysis" + d.analysisId,
      d.timestamp,
      NoteIds(notes),
      KeyFindings(FindingsKindOf(category), keyword, d.findings),
      SuccessFactors)
  }

  /** A string cannot contain a word whose first character it lacks. */
  lemma LacksFirstChar(s: string, w: string)
    requires |w| > 0 && w[0] !in s
    ensures !Contains(s, w)
  {
    if Contains(s, w) {
      ContainsFirstChar(s, w);
    }
  }

  /**
   * The category words the extraction can return select finding sets as
   * follows: 测评 and 推荐 reviews, 教程 and 技巧 tutorials, 分享 and 心得
   * experience sharing, every other word the general set.
   */
  lemma FindingsKindOfCategoryWords(c: string)
    requires c in ["测评", "分享", "教程", "攻略", "心得", "技巧", "推荐", "diy", "穿搭", "护肤", "美妆", "旅行", "美食", "健身"]
    ensures FindingsKindOf(c) == ReviewFindings <==> c == "测评" || c == "推荐"
    ensures FindingsKindOf(c) == TutorialFindings <==> c == "教程" || c == "技巧"
    ensures FindingsKindOf(c) == SharingFindings <==> c == "分享" || c == "心得"
  {
    SelectorWordsAbsent(c);
    assert StartsWith(c, c);
  }

  /** A category word contains none of the six selecting words other than itself. */
  lemma SelectorWordsAbsent(c: string)
    requires c in ["测评", "分享", "教程", "攻略", "心得", "技巧", "推荐", "diy", "穿搭", "护肤", "美妆", "旅行", "美食", "健身"]
    ensures forall w | w in ["测评", "推荐", "教程", "技巧", "分享", "心得"] && w != c :: !Contains(c, w)
  {
    forall w | w in ["测评", "推荐", "教程", "技巧", "分享", "心得"] && w != c
      ensures !Contains(c, w)
    {
      LacksFirstChar(c, w);
    }
  }

  // ---------------------------------------------------------------------------
  // Creation: `generateMockCreationResult`

  datatype CreationDraws = CreationDraws(
    titlePick: nat,
    title: TitleDraws,
    prose: ProseDraws,
    imageIds: seq<string>,
    emotional: seq<nat>,
    demographic: seq<nat>)

  /** Five to seven images (`Math.floor(Math.random() * 3) + 5`), two or three emotional and one or two demographic draws. */
  predicate CreationDrawsFit(d: CreationDraws) {
    && d.titlePick < 5 && TitleDrawsFit(d.title) && ProseDrawsFit(d.prose)
    && 5 <= |d.imageIds| <= 7
    && 2 <= |d.emotional| <= 3 && DrawsFrom(d.emotional, |EmotionalTags|)
    && 1 <= |d.demographic| <= 2 && DrawsFrom(d.demographic, |DemographicTags|)
  }

  /**
   * The created content: a creative title and body, the images with their
   * roles, the tags, `wordCount` as the body's JavaScript length, and no links yet.
   */
  function MockCreationResult(keyword: string, category: string, d: CreationDraws): (c: CreationResult)
    requires CreationDrawsFit(d)
  {
    var content := CreativeContent(keyword, category, d.prose);
    CreationResult(
      CreativeTitle(keyword, category, d.titlePick, d.title),
      content,
      GeneratedImages(d.imageIds),
      CreativeTags(keyword, category, d.emotional, d.demographic),
      Utf16Length(content),
      |d.imageIds|,
      "",
      "")
  }

  method GenerateMockCreationResult(keyword: string, category: string, d: CreationDraws) returns (c: CreationResult)
    requires CreationDrawsFit(d)
    ensures c == MockCreationResult(keyword, category, d)
  {
    var title := CreativeTitle(keyword, category, d.titlePick, d.title);
    var content := CreativeContent(keyword, category, d.prose);
    var images := GenerateImages(d.imageIds);
    var tags := GenerateCreativeTags(keyword, category, d.emotional, d.demographic);
    c := CreationResult(title, content, images, tags, Utf16Length(content), |d.imageIds|, "", "");
  }

  /**
   * Created content has as many images as `imageCount` says, five to seven,
   * opening with the cover and closing with an effect shot; `wordCount` is the
   * body's length in UTF-16 units; the title names keyword and category;
   * the tags open with the base five; the links are still empty.
   */
  lemma CreationShape(keyword: string, category: string, d: CreationDraws)
    requires CreationDrawsFit(d)
    ensures var c := MockCreationResult(keyword, category, d);
      && |c.images| == c.imageCount
      && 5 <= c.imageCount <= 7
      && c.images[0].role == Cover && c.images[c.imageCount - 1].role == Effect
      && c.wordCount == Utf16Length(c.content) && |c.content| <= c.wordCount <= 2 * |c.content|
      && Contains(c.title, keyword) && Contains(c.title, category)
      && 5 <= |c.tags| <= 10 && c.tags[..5] == BaseTags(keyword, category)
      && c.downloadLink == "" && c.previewLink == ""
  {
    CreationImagesShape(keyword, category, d);
    CreationCountsShape(keyword, category, d);
    CreationTextShape(keyword, category, d);
  }

  /** The image and count part of `CreationShape`. */
  lemma CreationImagesShape(keyword: string, category: string, d: CreationDraws)
    requires CreationDrawsFit(d)
    ensures var c := MockCreationResult(keyword, category, d);
      && |c.images| == c.imageCount
      && 5 <= c.imageCount <= 7
      && c.images[0].role == Cover && c.images[c.imageCount - 1].role == Effect
  {
    var c := MockCreationResult(keyword, category, d);
    assert c.images == GeneratedImages(d.imageIds) && c.imageCount == |d.imageIds|;
  }

  /** The length and link part of `CreationShape`. */
  lemma CreationCountsShape(keyword: string, category: string, d: CreationDraws)
    requires CreationDrawsFit(d)
    ensures var c := MockCreationResult(keyword, category, d);
      && c.wordCount == Utf16Length(c.content) && |c.content| <= c.wordCount <= 2 * |c.content|
      && c.downloadLink == "" && c.previewLink == ""
  {
    var content := CreativeContent(keyword, category, d.prose);
    var n := Utf16Length(content);
    assert |content| <= n <= 2 * |content|;
  }

  /** The title and tag half of `CreationShape`. */
  lemma CreationTextShape(keyword: string, category: string, d: CreationDraws)
    requires CreationDrawsFit(d)
    ensures var c := MockCreationResult(keyword, category, d);
      && Contains(c.title, keyword) && Contains(c.title, category)
      && 5 <= |c.tags| <= 10 && c.tags[..5] == BaseTags(keyword, category)
  {
    CreativeTitleMentions(keyword, category, d.titlePick, d.title);
    CreativeTagsShape(keyword, category, d.emotional, d.demographic);
  }
}
