/**
 * The text pipeline: whole-word keyword counting over ten fixed keyword
 * lists (one per pole), the four-segment type code and its sixteen-entry
 * name table, per-trait percentages, and the compatibility insights chosen
 * by substrings of the code.
 */
module EgentetoAnalyzer {
  import opened Wrappers
  import opened Strings
  import opened Dimensions

  // ---------------------------------------------------------------------
  // Tables
  // ---------------------------------------------------------------------

  /** The names a type code maps to; every one of the sixteen codes is present. */
  const PersonalityTypes: map<string, string> := map[
    "AA-L-S-P" := "The Analytical Strategist (TETO-EGEN)",
    "AA-L-S-R" := "The Methodical Planner (TETO-EGEN)",
    "AA-L-F-P" := "The Systematic Innovator (TETO-EGEN)",
    "AA-L-F-R" := "The Reflective Analyst (TETO-EGEN)",
    "AA-V-S-P" := "The Principled Organizer (TETO-EGEN)",
    "AA-V-S-R" := "The Ethical Guardian (TETO-EGEN)",
    "AA-V-F-P" := "The Value-Driven Creator (TETO-EGEN)",
    "AA-V-F-R" := "The Philosophical Thinker (TETO-EGEN)",
    "AI-L-S-P" := "The Visionary Leader (TETO-EGEN)",
    "AI-L-S-R" := "The Strategic Innovator (TETO-EGEN)",
    "AI-L-F-P" := "The Creative Problem Solver (TETO-EGEN)",
    "AI-L-F-R" := "The Intuitive Explorer (TETO-EGEN)",
    "AI-V-S-P" := "The Inspiring Mentor (TETO-EGEN)",
    "AI-V-S-R" := "The Empathetic Guide (TETO-EGEN)",
    "AI-V-F-P" := "The Passionate Visionary (TETO-EGEN)",
    "AI-V-F-R" := "The Contemplative Artist (TETO-EGEN)"
  ]

  /** The name used when a code is not in the table. */
  const BalancedExplorer: string := "The Balanced Explorer (TETO-EGEN)"

  /** A keyword is a non-empty string, matched as a whole word. */
  type Keyword = s: string | |s| > 0 witness "a"

  /** The keys of the pattern table, in declaration order. */
  datatype Category =
    | AnalyticalThinking | IntuitiveThinking
    | InternalEnergy | ExternalEnergy
    | LogicDecision | ValuesDecision
    | StructuredInteraction | FlexibleInteraction
    | ProactiveResponse | ReactiveResponse

  /**
   * The pole a category's count is written to. The source finds it by
   * testing which pole name the category key contains; every key contains
   * its own pole's name and none of the names tested before it.
   */
  function CategoryPole(c: Category): Pole {
    match c
    case AnalyticalThinking => Analytical
    case IntuitiveThinking => Intuitive
    case InternalEnergy => Internal
    case ExternalEnergy => External
    case LogicDecision => Logic
    case ValuesDecision => Values
    case StructuredInteraction => Structured
    case FlexibleInteraction => Flexible
    case ProactiveResponse => Proactive
    case ReactiveResponse => Reactive
  }

  /** Every pole receives the count of exactly one category. */
  function CategoryOf(p: Pole): (c: Category)
    ensures CategoryPole(c) == p
    ensures forall d :: CategoryPole(d) == p ==> d == c
  {
    match p
    case Analytical => AnalyticalThinking
    case Intuitive => IntuitiveThinking
    case Internal => InternalEnergy
    case External => ExternalEnergy
    case Logic => LogicDecision
    case Values => ValuesDecision
    case Structured => StructuredInteraction
    case Flexible => FlexibleInteraction
    case Proactive => ProactiveResponse
    case Reactive => ReactiveResponse
  }

  datatype Pattern = Pattern(category: Category, keywords: seq<Keyword>, weight: nat)

  const AnalyticalKeywords: seq<Keyword> := ["analyze", "data", "logic", "system", "process", "structure", "method", "plan", "organize", "detail", "research", "study", "examine", "evaluate", "assess", "measure", "calculate", "solve", "problem", "strategy"]
  const IntuitiveKeywords: seq<Keyword> := ["intuitive", "creative", "imagine", "vision", "insight", "inspire", "innovate", "artistic", "feel", "sense", "perceive", "dream", "visualize", "concept", "idea", "inspiration", "spontaneous", "abstract"]
  const InternalKeywords: seq<Keyword> := ["reflect", "private", "alone", "quiet", "contemplate", "think", "consider", "meditate", "inward", "introvert", "solitude", "personal", "individual", "independent", "self", "internal", "thoughtful"]
  const ExternalKeywords: seq<Keyword> := ["social", "outgoing", "team", "group", "people", "communicate", "express", "share", "collaborate", "interact", "extrovert", "community", "network", "outreach", "public", "external", "active"]
  const LogicKeywords: seq<Keyword> := ["logical", "rational", "objective", "fact", "evidence", "reason", "practical", "efficient", "effective", "results", "outcome", "benefit", "advantage", "pros", "cons", "analysis", "data-driven"]
  const ValuesKeywords: seq<Keyword> := ["values", "ethical", "moral", "care", "compassion", "empathy", "help", "support", "kind", "fair", "justice", "believe", "principle", "meaning", "purpose", "heart", "feelings", "emotional"]
  const StructuredKeywords: seq<Keyword> := ["structured", "organized", "planned", "scheduled", "routine", "order", "systematic", "methodical", "consistent", "reliable", "predictable", "controlled", "disciplined", "formal", "procedure", "protocol"]
  const FlexibleKeywords: seq<Keyword> := ["flexible", "adaptive", "spontaneous", "creative", "fluid", "open", "casual", "relaxed", "adaptable", "versatile", "dynamic", "agile", "change", "adjust", "modify", "innovative", "experimental"]
  const ProactiveKeywords: seq<Keyword> := ["proactive", "initiative", "lead", "start", "begin", "launch", "drive", "motivate", "action", "do", "execute", "implement", "achieve", "goal", "target", "ambition", "forward", "ahead"]
  const ReactiveKeywords: seq<Keyword> := ["reactive", "respond", "wait", "observe", "watch", "listen", "careful", "cautious", "thoughtful", "consider", "reflect", "pause", "delay", "patient", "deliberate", "measured", "responsive"]

  /** The keys of the pattern table, in the order they are visited. */
  const Categories: seq<Category> := [
    AnalyticalThinking, IntuitiveThinking, InternalEnergy, ExternalEnergy, LogicDecision,
    ValuesDecision, StructuredInteraction, FlexibleInteraction, ProactiveResponse, ReactiveResponse]

  /** The pattern table: each category's keyword list and weight. */
  function AnalysisPattern(c: Category): Pattern {
    match c
    case AnalyticalThinking => Pattern(c, AnalyticalKeywords, 1)
    case IntuitiveThinking => Pattern(c, IntuitiveKeywords, 1)
    case InternalEnergy => Pattern(c, InternalKeywords, 1)
    case ExternalEnergy => Pattern(c, ExternalKeywords, 1)
    case LogicDecision => Pattern(c, LogicKeywords, 1)
    case ValuesDecision => Pattern(c, ValuesKeywords, 1)
    case StructuredInteraction => Pattern(c, StructuredKeywords, 1)
    case FlexibleInteraction => Pattern(c, FlexibleKeywords, 1)
    case ProactiveResponse => Pattern(c, ProactiveKeywords, 1)
    case ReactiveResponse => Pattern(c, ReactiveKeywords, 1)
  }

  // ---------------------------------------------------------------------
  // Whole-word matching: the regular expression `\b<keyword>\b`, flag `g`
  // ---------------------------------------------------------------------

  /** Index `j` holds a word character (out-of-range indices do not). */
  predicate WordAt(text: string, j: int) {
    0 <= j < |text| && IsWordChar(text[j])
  }

  /** `\b` at index `i`: word-ness changes between `i - 1` and `i`. */
  predicate Boundary(text: string, i: int) {
    WordAt(text, i - 1) != WordAt(text, i)
  }

  /** `\b<kw>\b` matches at index `i`. */
  predicate WholeWordAt(text: string, kw: string, i: int) {
    Boundary(text, i) && OccursAt(text, kw, i) && Boundary(text, i + |kw|)
  }

  /**
   * `text.match(/\b<kw>\b/g).length` (0 when there is no match), scanning
   * from `from`: the leftmost match is taken and the scan resumes after it.
   */
  function MatchCount(text: string, kw: Keyword, from: nat): (r: nat)
    ensures from <= |text| ==> r * |kw| <= |text| - from
    decreases |text| - from
  {
    if from + |kw| > |text| then 0
    else if WholeWordAt(text, kw, from) then 1 + MatchCount(text, kw, from + |kw|)
    else MatchCount(text, kw, from + 1)
  }

  /** Reference count: the number of indices `>= from` where `\b<kw>\b` matches. */
  function PositionCount(text: string, kw: Keyword, from: nat): nat
    decreases |text| - from
  {
    if from + |kw| > |text| then 0
    else (if WholeWordAt(text, kw, from) then 1 else 0) + PositionCount(text, kw, from + 1)
  }

  /** Two whole-word occurrences of `kw` never overlap. */
  ghost predicate NoSelfOverlap(kw: string) {
    forall k :: 0 < k < |kw| && IsWordChar(kw[k - 1]) != IsWordChar(kw[k]) ==> kw[k..] != kw[..|kw| - k]
  }

  /** A checkable sufficient condition for NoSelfOverlap, from index `k` on. */
  function OverlapFreeFrom(kw: string, k: nat): bool
    decreases |kw| - k
  {
    k >= |kw| ||
    ((k == 0 || IsWordChar(kw[k - 1]) == IsWordChar(kw[k]) || kw[k] != kw[0] || (k + 1 < |kw| && kw[k + 1] != kw[1]))
     && OverlapFreeFrom(kw, k + 1))
  }

  /** The shape every keyword of the table has. */
  predicate KeywordShape(kw: Keyword) {
    IsWordChar(kw[0]) && OverlapFreeFrom(kw, 1)
  }

  lemma {:induction false} OverlapFreeSound(kw: string, from: nat)
    requires 1 <= from && OverlapFreeFrom(kw, from)
    ensures forall k :: from <= k < |kw| && IsWordChar(kw[k - 1]) != IsWordChar(kw[k]) ==> kw[k..] != kw[..|kw| - k]
    decreases |kw| - from
  {
    if from < |kw| {
      OverlapFreeSound(kw, from + 1);
      var k := from;
      if IsWordChar(kw[k - 1]) != IsWordChar(kw[k]) {
        if kw[k] != kw[0] {
          assert kw[k..][0] != kw[..|kw| - k][0];
        } else {
          assert kw[k..][1] != kw[..|kw| - k][1];
        }
      }
    }
  }

  lemma ShapeNoOverlap(kw: Keyword)
    requires KeywordShape(kw)
    ensures NoSelfOverlap(kw)
  {
    OverlapFreeSound(kw, 1);
  }

  lemma AnalyticalKeywordsShaped()
    ensures forall i :: 0 <= i < |AnalyticalKeywords| ==> KeywordShape(AnalyticalKeywords[i])
  {
  }

  lemma IntuitiveKeywordsShaped()
    ensures forall i :: 0 <= i < |IntuitiveKeywords| ==> KeywordShape(IntuitiveKeywords[i])
  {
  }

  lemma InternalKeywordsShaped()
    ensures forall i :: 0 <= i < |InternalKeywords| ==> KeywordShape(InternalKeywords[i])
  {
  }

  lemma ExternalKeywordsShaped()
    ensures forall i :: 0 <= i < |ExternalKeywords| ==> KeywordShape(ExternalKeywords[i])
  {
  }

  lemma LogicKeywordsShaped()
    ensures forall i :: 0 <= i < |LogicKeywords| ==> KeywordShape(LogicKeywords[i])
  {
  }

  lemma ValuesKeywordsShaped()
    ensures forall i :: 0 <= i < |ValuesKeywords| ==> KeywordShape(ValuesKeywords[i])
  {
  }

  lemma StructuredKeywordsShaped()
    ensures forall i :: 0 <= i < |StructuredKeywords| ==> KeywordShape(StructuredKeywords[i])
  {
  }

  lemma FlexibleKeywordsShaped()
    ensures forall i :: 0 <= i < |FlexibleKeywords| ==> KeywordShape(FlexibleKeywords[i])
  {
  }

  lemma ProactiveKeywordsShaped()
    ensures forall i :: 0 <= i < |ProactiveKeywords| ==> KeywordShape(ProactiveKeywords[i])
  {
  }

  lemma ReactiveKeywordsShaped()
    ensures forall i :: 0 <= i < |ReactiveKeywords| ==> KeywordShape(ReactiveKeywords[i])
  {
  }

  /** Every keyword of the table starts with a word character and cannot overlap itself. */
  lemma AllKeywordsShaped()
    ensures forall c, kw :: kw in AnalysisPattern(c).keywords ==> KeywordShape(kw)
  {
    AnalyticalKeywordsShaped();
    IntuitiveKeywordsShaped();
    InternalKeywordsShaped();
    ExternalKeywordsShaped();
    LogicKeywordsShaped();
    ValuesKeywordsShaped();
    StructuredKeywordsShaped();
    FlexibleKeywordsShaped();
    ProactiveKeywordsShaped();
    ReactiveKeywordsShaped();
  }


  /**
   * Two whole-word occurrences of `kw` less than `|kw|` apart: the keyword
   * has a word boundary at their distance and overlaps itself there.
   */
  lemma SelfOverlapAt(text: string, kw: Keyword, i: int, j: int)
    requires WholeWordAt(text, kw, i) && WholeWordAt(text, kw, j) && i < j < i + |kw|
    ensures IsWordChar(kw[j - i - 1]) != IsWordChar(kw[j - i])
    ensures kw[j - i..] == kw[..|kw| - (j - i)]
  {
    var k := j - i;
    OccursAtChars(text, kw, i);
    OccursAtChars(text, kw, j);
    assert text[j - 1] == kw[k - 1] && text[j] == kw[k] by {
      assert text[i + (k - 1)] == kw[k - 1];
      assert text[i + k] == kw[k];
    }
    forall m | 0 <= m < |kw| - k ensures kw[k..][m] == kw[..|kw| - k][m] {
      assert text[i + (k + m)] == kw[k + m];
      assert text[j + m] == kw[m];
    }
  }

  /** A whole-word occurrence of a non-overlapping keyword rules out another one starting inside it. */
  lemma NoMatchInside(text: string, kw: Keyword, i: int, j: int)
    requires NoSelfOverlap(kw)
    requires WholeWordAt(text, kw, i) && i < j < i + |kw|
    ensures !WholeWordAt(text, kw, j)
  {
    if WholeWordAt(text, kw, j) {
      SelfOverlapAt(text, kw, i, j);
    }
  }

  /** Positions where nothing matches can be skipped without changing the reference count. */
  lemma {:induction false} SkipNonMatches(text: string, kw: Keyword, a: nat, b: nat)
    requires a <= b
    requires forall j :: a <= j < b ==> !WholeWordAt(text, kw, j)
    ensures PositionCount(text, kw, a) == PositionCount(text, kw, b)
    decreases b - a
  {
    if a < b {
      SkipNonMatches(text, kw, a + 1, b);
    }
  }

  /**
   * For a keyword that cannot overlap itself, the regular-expression scan
   * counts exactly the indices where `\b<kw>\b` matches.
   */
  lemma {:induction false} MatchCountIsPositionCount(text: string, kw: Keyword, from: nat)
    requires NoSelfOverlap(kw)
    ensures MatchCount(text, kw, from) == PositionCount(text, kw, from)
    decreases |text| - from
  {
    if from + |kw| > |text| {
    } else if WholeWordAt(text, kw, from) {
      MatchCountIsPositionCount(text, kw, from + |kw|);
      forall j | from + 1 <= j < from + |kw| ensures !WholeWordAt(text, kw, j) {
        NoMatchInside(text, kw, from, j);
      }
      SkipNonMatches(text, kw, from + 1, from + |kw|);
    } else {
      MatchCountIsPositionCount(text, kw, from + 1);
    }
  }

  /** `\b` fails around `analyze` inside `analyzer`, so the longer word adds nothing. */
  lemma AnalyzeNotInsideAnalyzer()
    ensures MatchCount("analyzer", "analyze", 0) == 0
  {
    assert !Boundary("analyzer", 7) by { assert WordAt("analyzer", 6) && WordAt("analyzer", 7); }
    assert !Boundary("analyzer", 1) by { assert WordAt("analyzer", 0) && WordAt("analyzer", 1); }
    assert MatchCount("analyzer", "analyze", 2) == 0;
  }

  // ---------------------------------------------------------------------
  // Counting per category
  // ---------------------------------------------------------------------

  /** The summed match counts of a keyword list. */
  function Hits(text: string, kws: seq<Keyword>): (r: nat)
    ensures r == 0 <==> forall k :: 0 <= k < |kws| ==> MatchCount(text, kws[k], 0) == 0
    decreases |kws|
  {
    if |kws| == 0 then 0 else Hits(text, kws[..|kws| - 1]) + MatchCount(text, kws[|kws| - 1], 0)
  }

  /** Every keyword of a list contributes all of its matches to the list's total. */
  lemma {:induction false} HitsIncludeKeyword(text: string, kws: seq<Keyword>, j: nat)
    requires j < |kws|
    ensures Hits(text, kws) >= MatchCount(text, kws[j], 0)
    decreases |kws|
  {
    if j < |kws| - 1 {
      HitsIncludeKeyword(text, kws[..|kws| - 1], j);
    }
  }

  /** A category's weighted count; every weight in the table is 1, so it is the plain hit count. */
  function CategoryScore(text: string, c: Category): (r: nat)
    ensures r == Hits(text, AnalysisPattern(c).keywords)
  {
    Hits(text, AnalysisPattern(c).keywords) * AnalysisPattern(c).weight
  }

  /** The scores that hold, at each category's pole, that category's count. */
  function ScoresOfCounts(count: Category -> nat): (r: Scores)
    ensures forall c :: PoleValue(r, CategoryPole(c)) == count(c)
  {
    Scores(
      PolePair(count(AnalyticalThinking), count(IntuitiveThinking)),
      PolePair(count(InternalEnergy), count(ExternalEnergy)),
      PolePair(count(LogicDecision), count(ValuesDecision)),
      PolePair(count(StructuredInteraction), count(FlexibleInteraction)),
      PolePair(count(ProactiveResponse), count(ReactiveResponse)))
  }

  /** The scores of a lower-cased text: each pole holds its category's weighted count. */
  function ScoresOfText(text: string): (r: Scores)
    ensures forall c :: PoleValue(r, CategoryPole(c)) == CategoryScore(text, c)
  {
    ScoresOfCounts(c => CategoryScore(text, c))
  }

  /** The neutral scores returned for absent input: every pole is 5. */
  function GetDefaultScores(): (r: Scores)
    ensures forall p :: PoleValue(r, p) == 5
  {
    Uniform(5)
  }

  /**
   * What `analyzeUserInput` returns: defaults for a missing, non-string or
   * empty input, otherwise the counts over the lower-cased text.
   */
  function TextScores(input: Option<string>): (r: Scores)
    ensures (input.None? || input == Some("")) ==> forall p :: PoleValue(r, p) == 5
    ensures input.Some? && input.value != "" ==>
              forall c :: PoleValue(r, CategoryPole(c)) == CategoryScore(ToLower(input.value), c)
  {
    match input
    case None => GetDefaultScores()
    case Some(s) => if s == "" then GetDefaultScores() else ScoresOfText(ToLower(s))
  }

  /** The per-category weighted counts of a lower-cased text, in visiting order. */
  function CategoryCounts(text: string): (r: seq<nat>)
    ensures |r| == |Categories|
  {
    seq(|Categories|, i requires 0 <= i < |Categories| => CategoryScore(text, Categories[i]))
  }

  /** The scores after the first `i` of `counts` have been written to their categories' poles. */
  function Assigned(counts: seq<nat>, i: nat): Scores
    requires i <= |counts| <= |Categories|
  {
    if i == 0 then Uniform(0)
    else WithPole(Assigned(counts, i - 1), CategoryPole(Categories[i - 1]), counts[i - 1])
  }

  /** The first five counts fill the thinking, energy and first decision poles. */
  lemma AssignedFirstFive(counts: seq<nat>)
    requires |counts| == |Categories|
    ensures Assigned(counts, 5) == Scores(PolePair(counts[0], counts[1]), PolePair(counts[2], counts[3]), PolePair(counts[4], 0), PolePair(0, 0), PolePair(0, 0))
  {
    assert Assigned(counts, 1) == Scores(PolePair(counts[0], 0), PolePair(0, 0), PolePair(0, 0), PolePair(0, 0), PolePair(0, 0));
    assert Assigned(counts, 2) == Scores(PolePair(counts[0], counts[1]), PolePair(0, 0), PolePair(0, 0), PolePair(0, 0), PolePair(0, 0));
    assert Assigned(counts, 3) == Scores(PolePair(counts[0], counts[1]), PolePair(counts[2], 0), PolePair(0, 0), PolePair(0, 0), PolePair(0, 0));
    assert Assigned(counts, 4) == Scores(PolePair(counts[0], counts[1]), PolePair(counts[2], counts[3]), PolePair(0, 0), PolePair(0, 0), PolePair(0, 0));
  }

  /** Writing all ten counts fills every pole with its own category's count. */
  lemma AssignedAll(counts: seq<nat>)
    requires |counts| == |Categories|
    ensures Assigned(counts, |Categories|) == Scores(
      PolePair(counts[0], counts[1]), PolePair(counts[2], counts[3]), PolePair(counts[4], counts[5]),
      PolePair(counts[6], counts[7]), PolePair(counts[8], counts[9]))
  {
    AssignedFirstFive(counts);
    assert Assigned(counts, 6) == Scores(PolePair(counts[0], counts[1]), PolePair(counts[2], counts[3]), PolePair(counts[4], counts[5]), PolePair(0, 0), PolePair(0, 0));
    assert Assigned(counts, 7) == Scores(PolePair(counts[0], counts[1]), PolePair(counts[2], counts[3]), PolePair(counts[4], counts[5]), PolePair(counts[6], 0), PolePair(0, 0));
    assert Assigned(counts, 8) == Scores(PolePair(counts[0], counts[1]), PolePair(counts[2], counts[3]), PolePair(counts[4], counts[5]), PolePair(counts[6], counts[7]), PolePair(0, 0));
    assert Assigned(counts, 9) == Scores(PolePair(counts[0], counts[1]), PolePair(counts[2], counts[3]), PolePair(counts[4], counts[5]), PolePair(counts[6], counts[7]), PolePair(counts[8], 0));
    assert Assigned(counts, 10) == Scores(PolePair(counts[0], counts[1]), PolePair(counts[2], counts[3]), PolePair(counts[4], counts[5]), PolePair(counts[6], counts[7]), PolePair(counts[8], counts[9]));
  }

  /**
   * The body of `analyzeUserInput`'s loop for one category: sums the
   * whole-word match counts of every keyword, then applies the weight.
   */
  method WeightedCount(text: string, pattern: Pattern) returns (weightedCount: nat)
    ensures weightedCount == Hits(text, pattern.keywords) * pattern.weight
  {
    var count := 0;
    var j := 0;
    while j < |pattern.keywords|
      invariant 0 <= j <= |pattern.keywords|
      invariant count == Hits(text, pattern.keywords[..j])
    {
      assert pattern.keywords[..j + 1][..j] == pattern.keywords[..j];
      count := count + MatchCount(text, pattern.keywords[j], 0);
      j := j + 1;
    }
    assert pattern.keywords[..j] == pattern.keywords;
    weightedCount := count * pattern.weight;
  }

  /**
   * `analyzeUserInput`: defaults for absent or empty input; otherwise
   * visits every category, counts its keywords in the lower-cased text and
   * writes the weighted count to the category's pole.
   */
  method AnalyzeUserInput(input: Option<string>) returns (scores: Scores)
    ensures scores == TextScores(input)
  {
    if input.None? || input.value == "" {
      return GetDefaultScores();
    }
    var text := ToLower(input.value);
    ghost var counts := CategoryCounts(text);
    scores := Uniform(0);
    var i := 0;
    while i < |Categories|
      invariant 0 <= i <= |Categories|
      invariant scores == Assigned(counts, i)
    {
      var category := Categories[i];
      var weightedCount := WeightedCount(text, AnalysisPattern(category));
      scores := WithPole(scores, CategoryPole(category), weightedCount);
      i := i + 1;
    }
    AssignedAll(counts);
  }


  // ---------------------------------------------------------------------
  // What the counts mean
  // ---------------------------------------------------------------------

  /** Reference total of a keyword list: the summed whole-word match positions. */
  function PositionHits(text: string, kws: seq<Keyword>): nat
    decreases |kws|
  {
    if |kws| == 0 then 0 else PositionHits(text, kws[..|kws| - 1]) + PositionCount(text, kws[|kws| - 1], 0)
  }

  lemma {:induction false} HitsArePositionHits(text: string, kws: seq<Keyword>)
    requires forall kw :: kw in kws ==> KeywordShape(kw)
    ensures Hits(text, kws) == PositionHits(text, kws)
    decreases |kws|
  {
    if |kws| > 0 {
      HitsArePositionHits(text, kws[..|kws| - 1]);
      ShapeNoOverlap(kws[|kws| - 1]);
      MatchCountIsPositionCount(text, kws[|kws| - 1], 0);
    }
  }

  /**
   * For non-empty text, each pole holds the number of whole-word
   * occurrences of its category's keywords in the lower-cased text (the
   * weight is 1).
   */
  lemma PoleCountsWholeWords(s: string, c: Category)
    requires s != ""
    ensures PoleValue(TextScores(Some(s)), CategoryPole(c)) == PositionHits(ToLower(s), AnalysisPattern(c).keywords)
  {
    AllKeywordsShaped();
    HitsArePositionHits(ToLower(s), AnalysisPattern(c).keywords);
  }

  /** Every match of a category's keyword is added to that category's pole. */
  lemma KeywordFeedsPole(s: string, c: Category, kw: Keyword)
    requires s != "" && kw in AnalysisPattern(c).keywords
    ensures PoleValue(TextScores(Some(s)), CategoryPole(c)) >= MatchCount(ToLower(s), kw, 0)
  {
    var kws := AnalysisPattern(c).keywords;
    var j :| 0 <= j < |kws| && kws[j] == kw;
    HitsIncludeKeyword(ToLower(s), kws, j);
  }

  /**
   * Keywords listed under two categories: `creative` and `spontaneous`
   * (intuitive and flexible), `reflect`, `consider` and `thoughtful`
   * (internal and reactive).
   */
  lemma SharedKeywordsListed()
    ensures "creative" in IntuitiveKeywords && "creative" in FlexibleKeywords
    ensures "spontaneous" in IntuitiveKeywords && "spontaneous" in FlexibleKeywords
    ensures "reflect" in InternalKeywords && "reflect" in ReactiveKeywords
    ensures "consider" in InternalKeywords && "consider" in ReactiveKeywords
    ensures "thoughtful" in InternalKeywords && "thoughtful" in ReactiveKeywords
  {
    assert IntuitiveKeywords[1] == "creative" && FlexibleKeywords[3] == "creative";
    assert IntuitiveKeywords[16] == "spontaneous" && FlexibleKeywords[2] == "spontaneous";
    assert InternalKeywords[0] == "reflect" && ReactiveKeywords[10] == "reflect";
    assert InternalKeywords[6] == "consider" && ReactiveKeywords[9] == "consider";
    assert InternalKeywords[16] == "thoughtful" && ReactiveKeywords[8] == "thoughtful";
  }

  /** A keyword shared by two categories counts toward both of their poles. */
  lemma SharedKeywordCountsTwice(s: string, kw: Keyword, c1: Category, c2: Category)
    requires s != ""
    requires kw in AnalysisPattern(c1).keywords && kw in AnalysisPattern(c2).keywords
    ensures PoleValue(TextScores(Some(s)), CategoryPole(c1)) >= MatchCount(ToLower(s), kw, 0)
    ensures PoleValue(TextScores(Some(s)), CategoryPole(c2)) >= MatchCount(ToLower(s), kw, 0)
  {
    KeywordFeedsPole(s, c1, kw);
    KeywordFeedsPole(s, c2, kw);
  }

  /** Upper- and lower-case forms of the same text get identical scores. */
  lemma {:induction false} ScoresIgnoreCase(s: string)
    ensures TextScores(Some(ToUpper(s))) == TextScores(Some(s))
    ensures TextScores(Some(ToLower(s))) == TextScores(Some(s))
  {
    LowerOfUpper(s);
    forall i | 0 <= i < |s| ensures ToLower(ToLower(s))[i] == ToLower(s)[i] {
      LowerForgetsCase(s[i]);
    }
    assert ToLower(ToLower(s)) == ToLower(s);
  }

  /** A keyword whose first character is a word character cannot occur in text without word characters. */
  lemma {:induction false} NoWordNoMatch(text: string, kw: Keyword, from: nat)
    requires IsWordChar(kw[0])
    requires forall i :: 0 <= i < |text| ==> !IsWordChar(text[i])
    ensures MatchCount(text, kw, from) == 0
    decreases |text| - from
  {
    if from + |kw| <= |text| {
      OccursAtChars(text, kw, from);
      assert text[from + 0] == kw[0] || !OccursAt(text, kw, from);
      NoWordNoMatch(text, kw, if WholeWordAt(text, kw, from) then from + |kw| else from + 1);
    }
  }

  lemma {:induction false} NoWordNoHits(text: string, kws: seq<Keyword>)
    requires forall kw :: kw in kws ==> KeywordShape(kw)
    requires forall i :: 0 <= i < |text| ==> !IsWordChar(text[i])
    ensures Hits(text, kws) == 0
    decreases |kws|
  {
    if |kws| > 0 {
      NoWordNoHits(text, kws[..|kws| - 1]);
      assert KeywordShape(kws[|kws| - 1]);
      NoWordNoMatch(text, kws[|kws| - 1], 0);
    }
  }

  lemma ZeroCategoriesZeroScores(text: string)
    requires forall c :: CategoryScore(text, c) == 0
    ensures ScoresOfText(text) == Uniform(0)
  {
    forall p ensures PoleValue(ScoresOfText(text), p) == PoleValue(Uniform(0), p) {
    }
    ScoresExtensional(ScoresOfText(text), Uniform(0));
  }

  /**
   * A non-empty input with no word characters (only whitespace, say) is
   * counted, not defaulted, and every pole is 0.
   */
  lemma BlankTextScoresZero(s: string)
    requires s != ""
    requires forall i :: 0 <= i < |s| ==> !IsWordChar(s[i])
    ensures TextScores(Some(s)) == Uniform(0)
  {
    var text := ToLower(s);
    forall i | 0 <= i < |text| ensures !IsWordChar(text[i]) {
      LowerForgetsCase(s[i]);
    }
    AllKeywordsShaped();
    forall c ensures CategoryScore(text, c) == 0 {
      NoWordNoHits(text, AnalysisPattern(c).keywords);
    }
    ZeroCategoriesZeroScores(text);
  }

  // ---------------------------------------------------------------------
  // determinePersonalityType
  // ---------------------------------------------------------------------

  datatype Trait = Trait(name: string, score: nat)

  datatype Traits = Traits(
    thinkingStyle: Trait,
    energyDirection: Trait,
    decisionMaking: Trait,
    interactionPattern: Trait,
    responseMode: Trait)

  datatype PersonalityType = PersonalityType(typeCode: string, personalityType: string, traits: Traits)

  /**
   * The four-segment code: thinking style, decision making, interaction
   * pattern and response mode. Energy direction is not part of it.
   */
  function TypeCodeOf(s: Scores): (r: string)
    ensures |r| == 8 && r[0] == 'A' && r[2] == '-' && r[4] == '-' && r[6] == '-'
  {
    (if Leader(s, ThinkingStyle) == Analytical then "AA" else "AI") + "-" +
    (if Leader(s, DecisionMaking) == Logic then "L" else "V") + "-" +
    (if Leader(s, InteractionPattern) == Structured then "S" else "F") + "-" +
    (if Leader(s, ResponseMode) == Proactive then "P" else "R")
  }

  /** The code character by character. */
  lemma TypeCodeShape(s: Scores)
    ensures TypeCodeOf(s) == [
      'A', if Leader(s, ThinkingStyle) == Analytical then 'A' else 'I',
      '-', if Leader(s, DecisionMaking) == Logic then 'L' else 'V',
      '-', if Leader(s, InteractionPattern) == Structured then 'S' else 'F',
      '-', if Leader(s, ResponseMode) == Proactive then 'P' else 'R']
  {
  }

  /** Each letter position of the code tells which pole leads its dimension. */
  lemma TypeCodeLeaders(s: Scores)
    ensures |TypeCodeOf(s)| == 8
    ensures TypeCodeOf(s)[1] == 'A' <==> Leader(s, ThinkingStyle) == Analytical
    ensures TypeCodeOf(s)[3] == 'L' <==> Leader(s, DecisionMaking) == Logic
    ensures TypeCodeOf(s)[5] == 'S' <==> Leader(s, InteractionPattern) == Structured
    ensures TypeCodeOf(s)[7] == 'P' <==> Leader(s, ResponseMode) == Proactive
  {
    TypeCodeShape(s);
  }

  /**
   * Two score records get the same code exactly when they lead with the
   * same pole in each of the four coded dimensions; energy direction
   * never changes the code.
   */
  lemma TypeCodeDeterminesLeaders(s: Scores, t: Scores)
    ensures TypeCodeOf(s) == TypeCodeOf(t) <==>
      && Leader(s, ThinkingStyle) == Leader(t, ThinkingStyle)
      && Leader(s, DecisionMaking) == Leader(t, DecisionMaking)
      && Leader(s, InteractionPattern) == Leader(t, InteractionPattern)
      && Leader(s, ResponseMode) == Leader(t, ResponseMode)
  {
    TypeCodeShape(s);
    TypeCodeShape(t);
    if TypeCodeOf(s) == TypeCodeOf(t) {
      assert TypeCodeOf(s)[1] == TypeCodeOf(t)[1] && TypeCodeOf(s)[3] == TypeCodeOf(t)[3];
      assert TypeCodeOf(s)[5] == TypeCodeOf(t)[5] && TypeCodeOf(s)[7] == TypeCodeOf(t)[7];
    }
  }

  /** Every code `TypeCodeOf` can produce is a key of the table, whose names all differ from the fallback. */
  lemma TypeCodeKnown(s: Scores)
    ensures TypeCodeOf(s) in PersonalityTypes
    ensures PersonalityTypes[TypeCodeOf(s)] != BalancedExplorer
  {
    TypeCodeShape(s);
  }

  /**
   * `Math.round(max / (sum || 1) * 100)`: 0 when both poles are 0, 50 on
   * a non-zero tie, otherwise between 50 and 100.
   */
  function TraitScore(pp: PolePair): (r: nat)
    ensures pp.first + pp.second == 0 ==> r == 0
    ensures pp.first + pp.second > 0 ==> 50 <= r <= 100
    ensures pp.first == pp.second > 0 ==> r == 50
    ensures pp.first + pp.second > 0 && (pp.first == 0 || pp.second == 0) ==> r == 100
  {
    var top := if pp.first >= pp.second then pp.first else pp.second;
    var sum := pp.first + pp.second;
    var r := RoundDiv(100 * top, if sum == 0 then 1 else sum);
    TraitScoreBounds(top, sum, r);
    r
  }

  lemma TraitScoreBounds(top: nat, sum: nat, r: nat)
    requires top <= sum <= 2 * top
    requires sum > 0 ==> r * sum * 2 <= 200 * top + sum < (r + 1) * sum * 2
    ensures sum > 0 ==> 50 <= r <= 100
    ensures sum > 0 && sum == 2 * top ==> r == 50
    ensures sum > 0 && sum == top ==> r == 100
  {
    if sum > 0 {
      MulCancel(r, 101, sum);
      MulCancel(50, r + 1, sum);
      if sum == 2 * top {
        MulCancel(r, 51, sum);
      }
      if sum == top {
        MulCancel(100, r + 1, sum);
      }
    }
  }

  /** Cancelling a positive factor from a strict inequality. */
  lemma MulCancel(a: int, b: int, c: nat)
    requires c > 0 && a * c < b * c
    ensures a < b
  {
    if a >= b {
      MulMonotone(b, a, c);
    }
  }

  lemma {:induction false} MulMonotone(x: int, y: int, c: nat)
    requires x <= y
    ensures x * c <= y * c
    decreases c
  {
    if c > 0 {
      MulMonotone(x, y, c - 1);
      assert x * c == x * (c - 1) + x && y * c == y * (c - 1) + y;
    }
  }

  /** The trait of one dimension: the leading pole's name and the rounded share of the larger score. */
  function TraitOf(s: Scores, d: Dimension, firstName: string, secondName: string): (t: Trait)
    ensures t.name == (if Leader(s, d) == FirstPole(d) then firstName else secondName)
    ensures t.score == TraitScore(Pair(s, d))
  {
    var pp := Pair(s, d);
    Trait(if pp.first >= pp.second then firstName else secondName, TraitScore(pp))
  }

  /** The type code, its name from the table, and one trait per dimension. */
  function DeterminePersonalityType(s: Scores): (r: PersonalityType)
    ensures r.typeCode in PersonalityTypes && r.personalityType == PersonalityTypes[r.typeCode]
    ensures r.personalityType != BalancedExplorer
    ensures |r.typeCode| == 8
    ensures r.typeCode[1] == 'A' <==> Leader(s, ThinkingStyle) == Analytical
    ensures r.typeCode[3] == 'L' <==> Leader(s, DecisionMaking) == Logic
    ensures r.typeCode[5] == 'S' <==> Leader(s, InteractionPattern) == Structured
    ensures r.typeCode[7] == 'P' <==> Leader(s, ResponseMode) == Proactive
  {
    TypeCodeLeaders(s);
    TypeCodeKnown(s);
    var typeCode := TypeCodeOf(s);
    PersonalityType(
      typeCode,
      if typeCode in PersonalityTypes then PersonalityTypes[typeCode] else BalancedExplorer,
      Traits(
        TraitOf(s, ThinkingStyle, "Analytical", "Intuitive"),
        TraitOf(s, EnergyDirection, "Internal", "External"),
        TraitOf(s, DecisionMaking, "Logic-driven", "Values-driven"),
        TraitOf(s, InteractionPattern, "Structured", "Flexible"),
        TraitOf(s, ResponseMode, "Proactive", "Reactive")))
  }

  /** The table entry for `AA-L-S-P`. */
  lemma StrategistName()
    ensures PersonalityTypes["AA-L-S-P"] == "The Analytical Strategist (TETO-EGEN)"
  {
  }

  const StrategistScores: Scores := Scores(PolePair(10, 5), PolePair(8, 3), PolePair(7, 4), PolePair(9, 2), PolePair(6, 5))

  /** Scores {10/5, 8/3, 7/4, 9/2, 6/5} give the code `AA-L-S-P` and the Analytical Strategist. */
  lemma AnalyticalStrategistExample()
    ensures DeterminePersonalityType(StrategistScores).typeCode == "AA-L-S-P"
    ensures DeterminePersonalityType(StrategistScores).personalityType == "The Analytical Strategist (TETO-EGEN)"
  {
    TypeCodeShape(StrategistScores);
    assert TypeCodeOf(StrategistScores) == "AA-L-S-P";
    StrategistName();
  }

  /** The traits of the same scores: every first pole leads, with 67, 73, 64, 82 and 55 percent. */
  lemma AnalyticalStrategistTraits()
    ensures DeterminePersonalityType(StrategistScores).traits == Traits(
      Trait("Analytical", 67), Trait("Internal", 73), Trait("Logic-driven", 64), Trait("Structured", 82), Trait("Proactive", 55))
  {
    StrategistTraitScores();
  }

  /** The rounded shares of the larger pole in each of those five pairs. */
  lemma StrategistTraitScores()
    ensures TraitScore(PolePair(10, 5)) == 67 && TraitScore(PolePair(8, 3)) == 73
    ensures TraitScore(PolePair(7, 4)) == 64 && TraitScore(PolePair(9, 2)) == 82
    ensures TraitScore(PolePair(6, 5)) == 55
  {
  }

  // ---------------------------------------------------------------------
  // generateCompatibilityInsights
  // ---------------------------------------------------------------------

  datatype Insights = Insights(careers: seq<string>, relationships: seq<string>, growth: seq<string>)

  const AnalyticalCareers: seq<string> := ["Data Scientist", "Software Engineer", "Research Analyst", "Financial Consultant"]
  const CreativeCareers: seq<string> := ["Creative Director", "Marketing Strategist", "Product Designer", "Innovation Consultant"]
  const LogicCareers: seq<string> := ["Project Manager", "Operations Director"]
  const ValuesCareers: seq<string> := ["HR Specialist", "Community Manager"]
  const IntuitiveMatches: seq<string> := ["The Empathetic Connector (TETO-EGEN)", "The Reflective Philosopher (TETO-EGEN)"]
  const OtherMatches: seq<string> := ["The Dynamic Executor (TETO-EGEN)", "The Creative Innovator (TETO-EGEN)"]
  const AnalyticalGrowth: seq<string> := ["Emotional Intelligence", "Creative Expression", "Public Speaking"]
  const CreativeGrowth: seq<string> := ["Analytical Thinking", "Data Analysis", "Strategic Planning"]
  const StructuredGrowth: seq<string> := ["Adaptability", "Creative Problem Solving"]
  const FlexibleGrowth: seq<string> := ["Organization", "Time Management"]

  /**
   * The insight lists for any code string: careers are four chosen by
   * `AA` then two chosen by `L`, relationships two chosen by `I`, growth
   * three chosen by `AA` then two chosen by `S`.
   */
  function CompatibilityInsights(code: string): (r: Insights)
    ensures |r.careers| == 6 && |r.relationships| == 2 && |r.growth| == 5
  {
    Insights(
      (if Contains(code, "AA") then AnalyticalCareers else CreativeCareers) +
      (if Contains(code, "L") then LogicCareers else ValuesCareers),
      if Contains(code, "I") then IntuitiveMatches else OtherMatches,
      (if Contains(code, "AA") then AnalyticalGrowth else CreativeGrowth) +
      (if Contains(code, "S") then StructuredGrowth else FlexibleGrowth))
  }

  /** The lists are built as the source builds them: assigned, then extended by two. */
  method GenerateCompatibilityInsights(code: string) returns (insights: Insights)
    ensures insights == CompatibilityInsights(code)
    ensures |insights.careers| == 6 && |insights.relationships| == 2 && |insights.growth| == 5
  {
    insights := Insights([], [], []);
    if Contains(code, "AA") {
      insights := insights.(careers := AnalyticalCareers);
    } else {
      insights := insights.(careers := CreativeCareers);
    }
    if Contains(code, "L") {
      insights := insights.(careers := insights.careers + LogicCareers);
    } else {
      insights := insights.(careers := insights.careers + ValuesCareers);
    }
    if Contains(code, "I") {
      insights := insights.(relationships := IntuitiveMatches);
    } else {
      insights := insights.(relationships := OtherMatches);
    }
    if Contains(code, "AA") {
      insights := insights.(growth := AnalyticalGrowth);
    } else {
      insights := insights.(growth := CreativeGrowth);
    }
    if Contains(code, "S") {
      insights := insights.(growth := insights.growth + StructuredGrowth);
    } else {
      insights := insights.(growth := insights.growth + FlexibleGrowth);
    }
  }

  /** `AA-L-S-P` is recommended careers including Data Scientist and Software Engineer. */
  lemma AnalyticalStrategistInsights()
    ensures var r := CompatibilityInsights("AA-L-S-P");
      && "Data Scientist" in r.careers && "Software Engineer" in r.careers
      && r.careers == AnalyticalCareers + LogicCareers
      && r.relationships == OtherMatches
      && r.growth == AnalyticalGrowth + StructuredGrowth
  {
    var code := "AA-L-S-P";
    assert OccursAt(code, "AA", 0);
    assert OccursAt(code, "L", 3);
    assert OccursAt(code, "S", 5);
    ContainsChar(code, 'I');
    var r := CompatibilityInsights(code);
    assert r.careers[0] == "Data Scientist" && r.careers[1] == "Software Engineer";
  }

  /** In a text code, `AA` occurs exactly when the analytical pole leads. */
  lemma TextCodeContainsAA(s: Scores)
    ensures Contains(TypeCodeOf(s), "AA") <==> Leader(s, ThinkingStyle) == Analytical
  {
    var code := TypeCodeOf(s);
    TypeCodeShape(s);
    if Leader(s, ThinkingStyle) == Analytical {
      OccursAtChars(code, "AA", 0);
    }
    if Contains(code, "AA") {
      var i :| 0 <= i <= |code| - |"AA"| && OccursAt(code, "AA", i);
      OccursAtChars(code, "AA", i);
      assert code[i + 0] == 'A' && code[i + 1] == 'A';
    }
  }

  /** In a text code, the letters `L`, `I` and `S` occur exactly when logic, intuitive and structured lead. */
  lemma TextCodeLetters(s: Scores)
    ensures Contains(TypeCodeOf(s), "L") <==> Leader(s, DecisionMaking) == Logic
    ensures Contains(TypeCodeOf(s), "I") <==> Leader(s, ThinkingStyle) == Intuitive
    ensures Contains(TypeCodeOf(s), "S") <==> Leader(s, InteractionPattern) == Structured
  {
    TypeCodeShape(s);
    ContainsChar(TypeCodeOf(s), 'L');
    ContainsChar(TypeCodeOf(s), 'I');
    ContainsChar(TypeCodeOf(s), 'S');
  }

  /**
   * For a code made by `DeterminePersonalityType`, the thinking style
   * picks the first four careers, the relationship matches and the first
   * three growth areas. The relationship list follows the thinking style,
   * not the energy direction, since the only `I` a text code can hold is
   * the one in `AI`.
   */
  lemma InsightsFollowThinking(s: Scores)
    ensures var r := CompatibilityInsights(DeterminePersonalityType(s).typeCode);
      && (r.careers[..4] == AnalyticalCareers <==> Leader(s, ThinkingStyle) == Analytical)
      && (r.relationships == IntuitiveMatches <==> Leader(s, ThinkingStyle) == Intuitive)
      && (r.growth[..3] == AnalyticalGrowth <==> Leader(s, ThinkingStyle) == Analytical)
  {
    TextCodeContainsAA(s);
    TextCodeLetters(s);
    var r := CompatibilityInsights(TypeCodeOf(s));
    assert AnalyticalCareers[0][0] != CreativeCareers[0][0];
    assert IntuitiveMatches[0][4] != OtherMatches[0][4];
    assert AnalyticalGrowth[0][0] != CreativeGrowth[0][0];
    assert r.careers[..4] == (if Contains(TypeCodeOf(s), "AA") then AnalyticalCareers else CreativeCareers);
    assert r.growth[..3] == (if Contains(TypeCodeOf(s), "AA") then AnalyticalGrowth else CreativeGrowth);
  }

  /** The decision style picks the last two careers and the interaction pattern the last two growth areas. */
  lemma InsightsFollowDecisionAndInteraction(s: Scores)
    ensures var r := CompatibilityInsights(DeterminePersonalityType(s).typeCode);
      && (r.careers[4..] == LogicCareers <==> Leader(s, DecisionMaking) == Logic)
      && (r.growth[3..] == StructuredGrowth <==> Leader(s, InteractionPattern) == Structured)
  {
    TextCodeLetters(s);
    var r := CompatibilityInsights(TypeCodeOf(s));
    assert LogicCareers[0][0] != ValuesCareers[0][0];
    assert StructuredGrowth[0][0] != FlexibleGrowth[0][0];
    assert r.careers[4..] == (if Contains(TypeCodeOf(s), "L") then LogicCareers else ValuesCareers);
    assert r.growth[3..] == (if Contains(TypeCodeOf(s), "S") then StructuredGrowth else FlexibleGrowth);
  }


  // ---------------------------------------------------------------------
  // analyzePersonality
  // ---------------------------------------------------------------------

  /** The complete profile; the clock reading is passed in as `timestamp`. */
  datatype Profile = Profile(personalityType: string, traits: Traits, compatibility: Insights, timestamp: string)

  function ProfileOf(input: Option<string>, timestamp: string): (r: Profile)
    ensures r.personalityType in PersonalityTypes.Values && r.personalityType != BalancedExplorer
    ensures |r.compatibility.careers| == 6 && |r.compatibility.relationships| == 2 && |r.compatibility.growth| == 5
    ensures r.timestamp == timestamp
  {
    var personality := DeterminePersonalityType(TextScores(input));
    Profile(personality.personalityType, personality.traits, CompatibilityInsights(personality.typeCode), timestamp)
  }

  /** Scores the input, determines the type and derives the insights from its code. */
  method AnalyzePersonality(input: Option<string>, timestamp: string) returns (profile: Profile)
    ensures profile == ProfileOf(input, timestamp)
    ensures profile.personalityType in PersonalityTypes.Values && profile.personalityType != BalancedExplorer
    ensures |profile.compatibility.careers| == 6 && |profile.compatibility.relationships| == 2
    ensures |profile.compatibility.growth| == 5
  {
    var scores := AnalyzeUserInput(input);
    var personality := DeterminePersonalityType(scores);
    var compatibility := GenerateCompatibilityInsights(personality.typeCode);
    profile := Profile(personality.personalityType, personality.traits, compatibility, timestamp);
  }

  /** Upper- and lower-case forms of the same text get the same profile, trait names included. */
  lemma ProfileIgnoresCase(s: string, timestamp: string)
    ensures ProfileOf(Some(ToUpper(s)), timestamp) == ProfileOf(Some(s), timestamp)
  {
    ScoresIgnoreCase(s);
  }

  /** The default scores give the `AA-L-S-P` code and the Analytical Strategist. */
  lemma DefaultType()
    ensures DeterminePersonalityType(Uniform(5)).typeCode == "AA-L-S-P"
    ensures DeterminePersonalityType(Uniform(5)).personalityType == "The Analytical Strategist (TETO-EGEN)"
  {
    var s := Uniform(5);
    assert Leader(s, ThinkingStyle) == Analytical && Leader(s, DecisionMaking) == Logic;
    assert Leader(s, InteractionPattern) == Structured && Leader(s, ResponseMode) == Proactive;
    TypeCodeShape(s);
    assert TypeCodeOf(s) == "AA-L-S-P";
    StrategistName();
  }

  /** A tie at five points in every dimension gives every trait at 50, named after the first pole. */
  lemma DefaultTraits()
    ensures DeterminePersonalityType(Uniform(5)).traits == Traits(
      Trait("Analytical", 50), Trait("Internal", 50), Trait("Logic-driven", 50), Trait("Structured", 50), Trait("Proactive", 50))
  {
    assert TraitScore(PolePair(5, 5)) == 50;
  }

  /** Absent or empty input gives the default scores, hence the `AA-L-S-P` type with every trait at 50. */
  lemma DefaultProfile(timestamp: string)
    ensures ProfileOf(None, timestamp) == ProfileOf(Some(""), timestamp)
    ensures ProfileOf(None, timestamp).personalityType == "The Analytical Strategist (TETO-EGEN)"
    ensures ProfileOf(None, timestamp).traits == Traits(
      Trait("Analytical", 50), Trait("Internal", 50), Trait("Logic-driven", 50), Trait("Structured", 50), Trait("Proactive", 50))
  {
    assert TextScores(None) == Uniform(5) == TextScores(Some(""));
    DefaultType();
    DefaultTraits();
  }

}
