// The keyword action classifier shared by the paragraph generator, the
// client module, the batch generator and the enhanced generator: each
// category scores the number of its keywords found in the text, the first
// category with the highest score wins, and a text with no hit gets a
// random category.

module ActionClassifier {
  import opened Wrappers
  import PyText

  /** The five action categories, in the insertion order of every table. */
  datatype Category = Greeting | Pointing | Excited | Explaining | Urging

  const Categories: seq<Category> := [Greeting, Pointing, Excited, Explaining, Urging]

  function Name(c: Category): string {
    match c
    case Greeting => "greeting"
    case Pointing => "pointing"
    case Excited => "excited"
    case Explaining => "explaining"
    case Urging => "urging"
  }

  /** Position of a category in the tables' insertion order. */
  function IndexOf(c: Category): (k: nat)
    ensures k < |Categories| && Categories[k] == c
  {
    match c
    case Greeting => 0
    case Pointing => 1
    case Excited => 2
    case Explaining => 3
    case Urging => 4
  }

  /** Every category is a key of the tables. */
  lemma AllCategories()
    ensures forall c: Category :: c in Categories
  {
    forall c: Category ensures c in Categories {
      assert Categories[IndexOf(c)] == c;
    }
  }

  /** Dictionary lookup of a category by its key. */
  function Lookup(key: string): (r: Option<Category>)
    ensures r.Some? ==> Name(r.value) == key
    ensures r.None? ==> forall c: Category :: Name(c) != key
  {
    if key == "greeting" then Some(Greeting)
    else if key == "pointing" then Some(Pointing)
    else if key == "excited" then Some(Excited)
    else if key == "explaining" then Some(Explaining)
    else if key == "urging" then Some(Urging)
    else None
  }

  /** The keyword lists and image ranges of one script's action table. */
  datatype Table = Table(keywords: Category -> seq<string>, ranges: Category -> seq<(int, int)>)

  // ---------------------------------------------------------------------
  // The tables

  /** `ActionManager.keywords` in the paragraph generator and in dh_clients. */
  function ManagerKeywords(c: Category): seq<string> {
    match c
    case Greeting => ["宝宝", "大家", "各位", "亲爱", "朋友们", "宝子"]
    case Pointing => ["点击", "小黄车", "链接", "右下角", "这里", "看这"]
    case Excited => ["优惠", "特价", "限时", "抢购", "超值", "划算", "便宜"]
    case Explaining => ["产品", "质量", "材质", "功能", "效果", "介绍"]
    case Urging => ["赶紧", "快点", "马上", "立刻", "错过", "数量有限", "售完"]
  }

  /** `ActionManager.action_types` in the paragraph generator and in dh_clients. */
  function ManagerRanges(c: Category): seq<(int, int)> {
    match c
    case Greeting => [(0, 150), (500, 650)]
    case Pointing => [(150, 300), (800, 950)]
    case Excited => [(300, 450), (950, 1100)]
    case Explaining => [(450, 600), (1100, 1177)]
    case Urging => [(600, 750), (200, 350)]
  }

  const ManagerTable := Table(ManagerKeywords, ManagerRanges)

  /** `action_categories` of the batch generator. */
  function BatchKeywords(c: Category): seq<string> {
    match c
    case Greeting => ["你好", "大家好", "宝宝们", "欢迎", "开始", "直播"]
    case Pointing => ["点击", "小黄车", "链接", "这里", "看这里", "右下角"]
    case Excited => ["优惠", "抢购", "限时", "快", "赶紧", "立刻", "超值"]
    case Explaining => ["这个", "产品", "价格", "质量", "特点", "划算"]
    case Urging => ["错过", "最后", "数量有限", "库存", "机会", "先到先得"]
  }

  function BatchRanges(c: Category): seq<(int, int)> {
    match c
    case Greeting => [(0, 150), (500, 650)]
    case Pointing => [(150, 300), (800, 950)]
    case Excited => [(300, 450), (950, 1100)]
    case Explaining => [(450, 600), (1100, 1177)]
    case Urging => [(600, 750), (200, 350)]
  }

  const BatchTable := Table(BatchKeywords, BatchRanges)

  /** `action_categories` of the enhanced generator. */
  function EnhancedKeywords(c: Category): seq<string> {
    match c
    case Greeting => ["你好", "大家好", "宝宝们", "欢迎", "开始"]
    case Pointing => ["点击", "小黄车", "链接", "这里", "看这里"]
    case Excited => ["优惠", "抢购", "限时", "快", "赶紧", "立刻"]
    case Explaining => ["这个", "产品", "价格", "质量", "特点"]
    case Urging => ["错过", "最后", "数量有限", "库存", "机会"]
  }

  function EnhancedRanges(c: Category): seq<(int, int)> {
    match c
    case Greeting => [(0, 100), (500, 600)]
    case Pointing => [(100, 200), (800, 900)]
    case Excited => [(200, 350), (900, 1000)]
    case Explaining => [(350, 500), (1000, 1100)]
    case Urging => [(600, 800), (1100, 1177)]
  }

  const EnhancedTable := Table(EnhancedKeywords, EnhancedRanges)

  /** Every configured range of the three tables is non-empty and lies in
    * `[0, 1177]`, the default `total_images - 1`. */
  lemma ConfiguredRangesBounded(c: Category)
    ensures forall r :: r in ManagerRanges(c) ==> 0 <= r.0 <= r.1 <= 1177
    ensures forall r :: r in BatchRanges(c) ==> 0 <= r.0 <= r.1 <= 1177
    ensures forall r :: r in EnhancedRanges(c) ==> 0 <= r.0 <= r.1 <= 1177
    ensures |ManagerRanges(c)| > 0 && |BatchRanges(c)| > 0 && |EnhancedRanges(c)| > 0
  {
  }

  // ---------------------------------------------------------------------
  // Scores

  /** The score of one category: the number of its keywords that are
    * substrings of the text, each keyword counted at most once. */
  function Hits(text: string, kws: seq<string>): (n: nat)
    ensures n <= |kws|
    decreases |kws|
  {
    if kws == [] then 0
    else Hits(text, kws[..|kws| - 1]) + (if PyText.Contains(text, kws[|kws| - 1]) then 1 else 0)
  }

  /** The positions of the keywords the text contains. */
  function Matched(text: string, kws: seq<string>): set<nat> {
    set i: nat | i < |kws| && PyText.Contains(text, kws[i])
  }

  /** The score is the number of distinct keyword positions that match. */
  lemma {:induction false} HitsCountsMatches(text: string, kws: seq<string>)
    ensures Hits(text, kws) == |Matched(text, kws)|
    decreases |kws|
  {
    if kws != [] {
      var last := |kws| - 1;
      var p := kws[..last];
      HitsCountsMatches(text, p);
      if PyText.Contains(text, kws[last]) {
        assert Matched(text, kws) == Matched(text, p) + {last};
      } else {
        assert Matched(text, kws) == Matched(text, p);
      }
    }
  }

  /** The score of every category, in table order. */
  function Scores(t: Table, text: string): (xs: seq<nat>)
    ensures |xs| == |Categories|
    ensures forall k :: 0 <= k < |xs| ==> xs[k] == Hits(text, t.keywords(Categories[k]))
  {
    seq(|Categories|, k requires 0 <= k < |Categories| => Hits(text, t.keywords(Categories[k])))
  }

  /** The inner loop for one category: one more for every keyword the text
    * contains. */
  method CountHits(text: string, keywords: seq<string>) returns (n: nat)
    ensures n == Hits(text, keywords)
  {
    n := 0;
    for j := 0 to |keywords|
      invariant n == Hits(text, keywords[..j])
    {
      assert keywords[..j + 1][..j] == keywords[..j];
      if PyText.Contains(text, keywords[j]) {
        n := n + 1;
      }
    }
    assert keywords[..|keywords|] == keywords;
  }

  /** The nested scoring loop: `action_scores[action_type] += 1` for every
    * keyword of every category that occurs in the text. The inner loop's
    * increments of one entry are done by `CountHits`. */
  method ActionScores(t: Table, text: string) returns (scores: map<Category, nat>)
    ensures forall c: Category :: c in scores && scores[c] == Hits(text, t.keywords(c))
  {
    scores := map c: Category | c in Categories :: 0;
    forall c: Category ensures c in scores {
      assert Categories[IndexOf(c)] == c;
    }
    for i := 0 to |Categories|
      invariant forall c: Category :: c in scores
      invariant forall c: Category :: IndexOf(c) < i ==> scores[c] == Hits(text, t.keywords(c))
    {
      var actionType := Categories[i];
      assert IndexOf(actionType) == i;
      var hits := CountHits(text, t.keywords(actionType));
      scores := scores[actionType := hits];
    }
  }

  // ---------------------------------------------------------------------
  // First maximum

  /** `max(d, key=d.get)`: the first position, in insertion order, whose
    * score is the largest. */
  function FirstMaxIndex(xs: seq<nat>): (k: nat)
    requires |xs| > 0
    ensures k < |xs|
    ensures forall j :: 0 <= j < |xs| ==> xs[j] <= xs[k]
    ensures forall j :: 0 <= j < k ==> xs[j] < xs[k]
    decreases |xs|
  {
    if |xs| == 1 then 0
    else
      var b := FirstMaxIndex(xs[..|xs| - 1]);
      if xs[|xs| - 1] > xs[b] then |xs| - 1 else b
  }

  /** `max(d.values())` */
  function MaxOf(xs: seq<nat>): (m: nat)
    requires |xs| > 0
    ensures forall j :: 0 <= j < |xs| ==> xs[j] <= m
    decreases |xs|
  {
    if |xs| == 1 then xs[0]
    else
      var m := MaxOf(xs[..|xs| - 1]);
      if xs[|xs| - 1] > m then xs[|xs| - 1] else m
  }

  /** The largest value is the value at the first maximum. */
  lemma {:induction false} MaxOfAtFirstMax(xs: seq<nat>)
    requires |xs| > 0
    ensures MaxOf(xs) == xs[FirstMaxIndex(xs)]
    decreases |xs|
  {
    if |xs| > 1 {
      MaxOfAtFirstMax(xs[..|xs| - 1]);
    }
  }

  // ---------------------------------------------------------------------
  // The two forms of `analyze_text_action`

  /** Paragraph generator and dh_clients: take the first maximum, and when
    * its score is 0 draw `random.choice` over the keys (`pick` is the draw). */
  function ClassifyByBest(t: Table, text: string, pick: nat): (c: Category)
    ensures MaxOf(Scores(t, text)) > 0 ==> Scores(t, text)[IndexOf(c)] == MaxOf(Scores(t, text))
    ensures MaxOf(Scores(t, text)) == 0 ==> c == Categories[pick % |Categories|]
  {
    var xs := Scores(t, text);
    MaxOfAtFirstMax(xs);
    var best := FirstMaxIndex(xs);
    if xs[best] == 0 then Categories[pick % |Categories|] else Categories[best]
  }

  /** Batch and enhanced generators: lower-case the text, and take the first
    * maximum only when `max(scores.values()) > 0`. */
  function ClassifyByMax(t: Table, text: string, pick: nat): (c: Category)
    ensures var xs := Scores(t, PyText.Lower(text));
      (MaxOf(xs) > 0 ==> xs[IndexOf(c)] == MaxOf(xs)) && (MaxOf(xs) == 0 ==> c == Categories[pick % |Categories|])
  {
    var xs := Scores(t, PyText.Lower(text));
    MaxOfAtFirstMax(xs);
    if MaxOf(xs) > 0 then Categories[FirstMaxIndex(xs)] else Categories[pick % |Categories|]
  }

  /** The winner of a text with at least one hit has the highest score and
    * every category before it scores strictly less; a text with no hit gets
    * the drawn category. */
  lemma ClassifyChoice(t: Table, text: string, pick: nat)
    ensures var xs := Scores(t, text); var c := ClassifyByBest(t, text, pick);
      ((forall j :: 0 <= j < |xs| ==> xs[j] == 0) && c == Categories[pick % |Categories|])
      || (xs[IndexOf(c)] > 0
          && (forall j :: 0 <= j < |xs| ==> xs[j] <= xs[IndexOf(c)])
          && (forall j :: 0 <= j < IndexOf(c) ==> xs[j] < xs[IndexOf(c)]))
  {
    var xs := Scores(t, text);
    var best := FirstMaxIndex(xs);
    if xs[best] == 0 {
      assert forall j :: 0 <= j < |xs| ==> xs[j] == 0;
    } else {
      assert IndexOf(Categories[best]) == best;
    }
  }

  /** The `max(...) > 0` guard and the `score[best] == 0` guard choose the
    * same category, once the text is lower-cased. */
  lemma ClassifyFormsAgree(t: Table, text: string, pick: nat)
    ensures ClassifyByMax(t, text, pick) == ClassifyByBest(t, PyText.Lower(text), pick)
  {
    MaxOfAtFirstMax(Scores(t, PyText.Lower(text)));
  }

  /** Lower-casing changes nothing for a text without ASCII capitals, such
    * as Chinese text, so both forms then agree on the text itself. */
  lemma LowerNoCapitals(text: string)
    requires forall i :: 0 <= i < |text| ==> !('A' <= text[i] <= 'Z')
    ensures PyText.Lower(text) == text
  {
  }

  /** `ActionManager.analyze_text_action` (paragraph generator, dh_clients). */
  method AnalyzeTextAction(t: Table, text: string, pick: nat) returns (best: Category)
    ensures best == ClassifyByBest(t, text, pick)
  {
    var scores := ActionScores(t, text);
    var xs := [scores[Greeting], scores[Pointing], scores[Excited], scores[Explaining], scores[Urging]];
    assert xs == Scores(t, text);
    best := Categories[FirstMaxIndex(xs)];
    if scores[best] == 0 {
      best := Categories[pick % |Categories|];
    }
  }

  /** `_analyze_single_sentence` (batch generator) and `analyze_text_action`
    * (enhanced generator). */
  method AnalyzeSentence(t: Table, text: string, pick: nat) returns (best: Category)
    ensures best == ClassifyByMax(t, text, pick)
  {
    var textLower := PyText.Lower(text);
    var scores := ActionScores(t, textLower);
    var xs := [scores[Greeting], scores[Pointing], scores[Excited], scores[Explaining], scores[Urging]];
    assert xs == Scores(t, textLower);
    if MaxOf(xs) > 0 {
      best := Categories[FirstMaxIndex(xs)];
    } else {
      best := Categories[pick % |Categories|];
    }
  }

  // ---------------------------------------------------------------------
  // Ranges

  const DefaultRange: (int, int) := (0, 100)

  /** `self.action_types.get(action_type, [(0, 100)])` */
  function RangesFor(t: Table, actionType: string): seq<(int, int)> {
    match Lookup(actionType)
    case Some(c) => t.ranges(c)
    case None => [DefaultRange]
  }

  /** `get_action_range`: `random.choice` over the type's ranges (`pick` is
    * the draw); an empty list raises IndexError. */
  function GetActionRange(t: Table, actionType: string, pick: nat): (r: Result<(int, int)>)
    ensures r.Ok? <==> |RangesFor(t, actionType)| > 0
    ensures r.Ok? ==> r.value in RangesFor(t, actionType)
    ensures Lookup(actionType).None? ==> r == Ok(DefaultRange)
    ensures Lookup(actionType).Some? && r.Ok? ==> r.value in t.ranges(Lookup(actionType).value)
  {
    var ranges := RangesFor(t, actionType);
    if |ranges| == 0 then Err(IndexError) else Ok(ranges[pick % |ranges|])
  }

  /** With the configured tables the lookup never fails and stays in
    * `[0, 1177]`. */
  lemma ManagerRangeBounded(actionType: string, pick: nat)
    ensures var r := GetActionRange(ManagerTable, actionType, pick);
      r.Ok? && 0 <= r.value.0 <= r.value.1 <= 1177
  {
    match Lookup(actionType)
    case None =>
    case Some(c) => ConfiguredRangesBounded(c);
  }

  // ---------------------------------------------------------------------
  // The stand-in ActionManager of dh_generator, used when the client module
  // cannot be imported.

  /** Its `analyze_text_action` ignores the text and names a known category. */
  function StubAnalyze(text: string): (name: string)
    ensures Lookup(name) == Some(Greeting)
  {
    "greeting"
  }

  /** Its `get_action_range` ignores the type and answers the default range. */
  function StubRange(actionType: string): (r: (int, int))
    ensures r.0 <= r.1
  {
    DefaultRange
  }

  /** The stand-in's range is what the real lookup answers for a type it
    * does not know. */
  lemma StubRangeIsDefault(t: Table, actionType: string, pick: nat)
    requires Lookup(actionType).None?
    ensures GetActionRange(t, actionType, pick) == Ok(StubRange(actionType))
  {
  }
}
