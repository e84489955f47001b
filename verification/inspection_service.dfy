/**
 * The questionnaire pipeline: a fixed bank of five questions (one per
 * dimension), the accumulation of the chosen options' weights, the
 * dominant pole of each dimension, the five-letter type code and its
 * six-entry table, the spread-based confidence, and response validation.
 *
 * Option weights are integer tenths (0.7 is 7). The service object's
 * fields are set once and never changed, so its tables are module
 * constants and its methods take no receiver.
 */
module EgentetoInspectionService {
  import opened Wrappers
  import opened Strings
  import opened Dimensions

  // ---------------------------------------------------------------------
  // Tables
  // ---------------------------------------------------------------------

  /** An answer option; `weight` maps a pole to the tenths it adds. */
  datatype AnswerOption = AnswerOption(id: string, text: string, weight: map<Pole, nat>)

  datatype Question = Question(id: string, dimension: Dimension, text: string, options: seq<AnswerOption>)

  datatype TypeDetails = TypeDetails(name: string, description: string, strengths: seq<string>, growthAreas: seq<string>)

  /** The questionnaire's type table. Every key has `E` or `I` as its third letter. */
  const PersonalityTypes: map<string, TypeDetails> := map[
    "A-I-E-S-P" := TypeDetails(
      "The Analytical Visionary",
      "Strategic thinkers who approach problems systematically while maintaining big-picture perspective",
      ["Problem-solving", "Critical analysis", "Strategic planning"],
      ["Emotional intelligence", "Spontaneous creativity"]),
    "A-I-E-S-R" := TypeDetails(
      "The Methodical Executor",
      "Detail-oriented implementers who execute plans with precision and consistency",
      ["Attention to detail", "Reliability", "Process optimization"],
      ["Adaptability", "Risk-taking"]),
    "A-I-E-F-P" := TypeDetails(
      "The Adaptive Innovator",
      "Flexible problem-solvers who adapt their approach based on situational needs",
      ["Adaptability", "Creative problem-solving", "Versatility"],
      ["Consistency", "Long-term planning"]),
    "A-I-I-S-P" := TypeDetails(
      "The Reflective Strategist",
      "Thoughtful planners who prefer to work independently on complex challenges",
      ["Deep thinking", "Independent work", "Strategic foresight"],
      ["Delegation", "Public speaking"]),
    "I-I-E-S-P" := TypeDetails(
      "The Charismatic Leader",
      "Natural leaders who inspire others through their intuitive understanding of people",
      ["Leadership", "Communication", "Influence"],
      ["Data analysis", "Process documentation"]),
    "I-I-E-F-R" := TypeDetails(
      "The Social Catalyst",
      "Energetic collaborators who thrive in social environments and drive group dynamics",
      ["Team building", "Motivation", "Networking"],
      ["Individual focus", "Deep analysis"])
  ]

  /** The details used when a code is not in the table. */
  const UniqueBlend: TypeDetails := TypeDetails(
    "Unique Blend",
    "A distinctive combination of personality traits",
    ["Adaptability", "Unique perspective"],
    ["Self-awareness", "Pattern recognition"])

  const ThinkingQuestion: Question :=
    Question("q1", ThinkingStyle, "In group discussions, you tend to:", [
      AnswerOption("a", "Listen carefully to others", map[Analytical := 7, Intuitive := 3]),
      AnswerOption("b", "Share ideas when asked", map[Analytical := 5, Intuitive := 5]),
      AnswerOption("c", "Lead discussions", map[Analytical := 3, Intuitive := 7])])

  const EnergyQuestion: Question :=
    Question("q2", EnergyDirection, "When solving complex problems, you prefer to:", [
      AnswerOption("a", "Break into smaller parts", map[Internal := 8, External := 2]),
      AnswerOption("b", "See the big picture", map[Internal := 4, External := 6]),
      AnswerOption("c", "Experiment with solutions", map[Internal := 3, External := 7])])

  const DecisionQuestion: Question :=
    Question("q3", DecisionMaking, "After social interactions, you typically:", [
      AnswerOption("a", "Need quiet time alone", map[Logic := 6, Values := 4]),
      AnswerOption("b", "Feel energized and ready", map[Logic := 3, Values := 7]),
      AnswerOption("c", "Mix of both depending on context", map[Logic := 5, Values := 5])])

  const InteractionQuestion: Question :=
    Question("q4", InteractionPattern, "When working on projects, you prefer:", [
      AnswerOption("a", "Detailed plans with clear steps", map[Structured := 8, Flexible := 2]),
      AnswerOption("b", "General outline with room to adapt", map[Structured := 4, Flexible := 6]),
      AnswerOption("c", "Flexible approach based on what emerges", map[Structured := 2, Flexible := 8])])

  const ResponseQuestion: Question :=
    Question("q5", ResponseMode, "When facing new challenges, you typically:", [
      AnswerOption("a", "Start planning and taking action immediately", map[Proactive := 8, Reactive := 2]),
      AnswerOption("b", "Observe and gather information first", map[Proactive := 3, Reactive := 7]),
      AnswerOption("c", "Mix of both depending on the situation", map[Proactive := 5, Reactive := 5])])

  /** The question bank, one question per dimension in declared order. */
  const QuestionBank: seq<Question> := [ThinkingQuestion, EnergyQuestion, DecisionQuestion, InteractionQuestion, ResponseQuestion]

  /** The question ids in bank order. */
  const BankIds: seq<string> := ["q1", "q2", "q3", "q4", "q5"]

  lemma BankIdsAreIds()
    ensures |BankIds| == |QuestionBank|
    ensures forall i :: 0 <= i < |QuestionBank| ==> QuestionBank[i].id == BankIds[i]
  {
  }

  /** Nothing is missing exactly when every required id is provided. */
  lemma NothingMissing(required: seq<string>, provided: set<string>)
    ensures Missing(required, provided) == [] <==> forall id :: id in required ==> id in provided
  {
    var r := Missing(required, provided);
    if r != [] {
      assert r[0] in r;
    }
  }

  /** Collecting the bank's ids gives `BankIds`. */
  lemma BankQuestionIds()
    ensures QuestionIds(QuestionBank) == BankIds
  {
    BankIdsAreIds();
  }

  /** No two entries share an id. */
  predicate DistinctIds(bank: seq<Question>) {
    forall i, j :: 0 <= i < j < |bank| ==> bank[i].id != bank[j].id
  }

  /** Options a, b and c, each weighing exactly the dimension's two poles with ten tenths in all. */
  predicate WellShaped(q: Question) {
    && |q.options| == 3
    && q.options[0].id == "a" && q.options[1].id == "b" && q.options[2].id == "c"
    && forall o :: o in q.options ==>
                     && o.weight.Keys == {FirstPole(q.dimension), SecondPole(q.dimension)}
                     && o.weight[FirstPole(q.dimension)] + o.weight[SecondPole(q.dimension)] == 10
  }

  /** One option weighs exactly the two poles of `d`, with ten tenths in all. */
  predicate OptionShaped(o: AnswerOption, d: Dimension) {
    o.weight.Keys == {FirstPole(d), SecondPole(d)} && o.weight[FirstPole(d)] + o.weight[SecondPole(d)] == 10
  }

  lemma ShapedByOptions(q: Question)
    requires |q.options| == 3 && q.options[0].id == "a" && q.options[1].id == "b" && q.options[2].id == "c"
    requires OptionShaped(q.options[0], q.dimension) && OptionShaped(q.options[1], q.dimension)
    requires OptionShaped(q.options[2], q.dimension)
    ensures WellShaped(q)
  {
    forall o | o in q.options
      ensures o.weight.Keys == {FirstPole(q.dimension), SecondPole(q.dimension)}
      ensures o.weight[FirstPole(q.dimension)] + o.weight[SecondPole(q.dimension)] == 10
    {
      assert OptionShaped(o, q.dimension);
    }
  }

  lemma ThinkingQuestionShaped() ensures WellShaped(QuestionBank[0]) { ShapedByOptions(ThinkingQuestion); }
  lemma EnergyQuestionShaped() ensures WellShaped(QuestionBank[1]) { ShapedByOptions(EnergyQuestion); }
  lemma DecisionQuestionShaped() ensures WellShaped(QuestionBank[2]) { ShapedByOptions(DecisionQuestion); }
  lemma InteractionQuestionShaped() ensures WellShaped(QuestionBank[3]) { ShapedByOptions(InteractionQuestion); }
  lemma ResponseQuestionShaped() ensures WellShaped(QuestionBank[4]) { ShapedByOptions(ResponseQuestion); }

  lemma BankDistinct()
    ensures DistinctIds(QuestionBank)
  {
    BankIdsAreIds();
  }

  /**
   * The bank as returned to callers: five questions q1..q5, one per
   * dimension in declared order, each with options a, b and c whose
   * weights name exactly that dimension's two poles and add up to ten
   * tenths.
   */
  function GetQuestions(): (r: seq<Question>)
    ensures |r| == 5 && DistinctIds(r)
    ensures forall i :: 0 <= i < 5 ==> r[i].id == BankIds[i] && r[i].dimension == AllDimensions[i]
    ensures forall i :: 0 <= i < 5 ==> WellShaped(r[i])
  {
    BankFacts();
    QuestionBank
  }

  lemma BankFacts()
    ensures |QuestionBank| == 5 && DistinctIds(QuestionBank)
    ensures forall i :: 0 <= i < 5 ==> QuestionBank[i].id == BankIds[i] && QuestionBank[i].dimension == AllDimensions[i]
    ensures forall i :: 0 <= i < 5 ==> WellShaped(QuestionBank[i])
  {
    assert DistinctIds(QuestionBank) by { BankDistinct(); }
    assert forall i :: 0 <= i < 5 ==> QuestionBank[i].id == BankIds[i] by { BankIdsAreIds(); }
    assert forall i :: 0 <= i < 5 ==> QuestionBank[i].dimension == AllDimensions[i] by { BankDimensions(); }
    assert forall i :: 0 <= i < 5 ==> WellShaped(QuestionBank[i]) by { BankShaped(); }
  }

  lemma BankShaped()
    ensures forall i :: 0 <= i < |QuestionBank| ==> WellShaped(QuestionBank[i])
  {
    forall i | 0 <= i < |QuestionBank| ensures WellShaped(QuestionBank[i]) {
      if i == 0 {
        ThinkingQuestionShaped();
      } else if i == 1 {
        EnergyQuestionShaped();
      } else if i == 2 {
        DecisionQuestionShaped();
      } else if i == 3 {
        InteractionQuestionShaped();
      } else {
        ResponseQuestionShaped();
      }
    }
  }

  // ---------------------------------------------------------------------
  // Finding questions and options (`Array.prototype.find`)
  // ---------------------------------------------------------------------

  /** The first question with the given id, if any. */
  function FindQuestion(bank: seq<Question>, id: string): (r: Option<Question>)
    ensures r.None? <==> forall i :: 0 <= i < |bank| ==> bank[i].id != id
    ensures r.Some? ==> exists i :: 0 <= i < |bank| && bank[i] == r.value && bank[i].id == id && forall j :: 0 <= j < i ==> bank[j].id != id
  {
    if |bank| == 0 then None
    else if bank[0].id == id then Some(bank[0])
    else
      var r := FindQuestion(bank[1..], id);
      assert r.Some? ==> exists i :: 1 <= i < |bank| && bank[i] == r.value && bank[i].id == id && forall j :: 0 <= j < i ==> bank[j].id != id by {
        if r.Some? {
          var i :| 0 <= i < |bank[1..]| && bank[1..][i] == r.value && bank[1..][i].id == id && forall j :: 0 <= j < i ==> bank[1..][j].id != id;
          assert forall j :: 0 <= j < i + 1 ==> bank[j].id != id by {
            forall j | 0 <= j < i + 1 ensures bank[j].id != id {
              if j > 0 {
                assert bank[j] == bank[1..][j - 1];
              }
            }
          }
        }
      }
      r
  }

  /** The first option with the given id, if any. */
  function FindOption(options: seq<AnswerOption>, id: string): (r: Option<AnswerOption>)
    ensures r.None? <==> forall i :: 0 <= i < |options| ==> options[i].id != id
    ensures r.Some? ==> exists i :: 0 <= i < |options| && options[i] == r.value && options[i].id == id && forall j :: 0 <= j < i ==> options[j].id != id
  {
    if |options| == 0 then None
    else if options[0].id == id then Some(options[0])
    else
      var r := FindOption(options[1..], id);
      assert r.Some? ==> exists i :: 1 <= i < |options| && options[i] == r.value && options[i].id == id && forall j :: 0 <= j < i ==> options[j].id != id by {
        if r.Some? {
          var i :| 0 <= i < |options[1..]| && options[1..][i] == r.value && options[1..][i].id == id && forall j :: 0 <= j < i ==> options[1..][j].id != id;
          assert forall j :: 0 <= j < i + 1 ==> options[j].id != id by {
            forall j | 0 <= j < i + 1 ensures options[j].id != id {
              if j > 0 {
                assert options[j] == options[1..][j - 1];
              }
            }
          }
        }
      }
      r
  }

  // ---------------------------------------------------------------------
  // Accumulating the answers
  // ---------------------------------------------------------------------

  /** The tenths a weight map gives pole `p`, 0 when it names no weight for it. */
  function Weight(w: map<Pole, nat>, p: Pole): nat {
    if p in w then w[p] else 0
  }

  /** Adds an option's weights to the accumulators of dimension `d`. */
  function AddWeights(s: Scores, d: Dimension, w: map<Pole, nat>): (r: Scores)
    ensures forall p :: PoleValue(r, p) == PoleValue(s, p) + (if DimensionOf(p) == d then Weight(w, p) else 0)
  {
    var pp := Pair(s, d);
    WithPairValues(s, d, PolePair(pp.first + Weight(w, FirstPole(d)), pp.second + Weight(w, SecondPole(d))));
    WithPair(s, d, PolePair(pp.first + Weight(w, FirstPole(d)), pp.second + Weight(w, SecondPole(d))))
  }

  /** The order in which two answers are added does not matter. */
  lemma AddWeightsCommute(s: Scores, d1: Dimension, w1: map<Pole, nat>, d2: Dimension, w2: map<Pole, nat>)
    ensures AddWeights(AddWeights(s, d1, w1), d2, w2) == AddWeights(AddWeights(s, d2, w2), d1, w1)
  {
    ScoresExtensional(AddWeights(AddWeights(s, d1, w1), d2, w2), AddWeights(AddWeights(s, d2, w2), d1, w1));
  }

  /** Answer `answer` to question `q`: its option's weights, or nothing when no option has that id. */
  function Choose(q: Question, answer: string, s: Scores): (r: Scores)
    ensures FindOption(q.options, answer).None? ==> r == s
    ensures forall p :: PoleValue(r, p) >= PoleValue(s, p)
    ensures forall p :: DimensionOf(p) != q.dimension ==> PoleValue(r, p) == PoleValue(s, p)
  {
    match FindOption(q.options, answer)
    case None => s
    case Some(o) => AddWeights(s, q.dimension, o.weight)
  }

  /** One response: the question is looked up by id; unknown ids and unknown options add nothing. */
  function AnswerScores(bank: seq<Question>, s: Scores, id: string, answer: string): (r: Scores)
    ensures FindQuestion(bank, id).None? ==> r == s
    ensures forall p :: PoleValue(r, p) >= PoleValue(s, p)
  {
    match FindQuestion(bank, id)
    case None => s
    case Some(q) => Choose(q, answer, s)
  }

  /**
   * Reference accumulation, independent of the order of the responses:
   * each question of the bank, in turn, adds the weights of the option
   * answered to it.
   */
  function BankScores(bank: seq<Question>, answers: map<string, string>): (r: Scores)
    ensures forall p :: (forall i :: 0 <= i < |bank| ==> bank[i].dimension != DimensionOf(p)) ==> PoleValue(r, p) == 0
    decreases |bank|
  {
    if |bank| == 0 then Uniform(0)
    else
      var rest := BankScores(bank[1..], answers);
      if bank[0].id in answers then Choose(bank[0], answers[bank[0].id], rest) else rest
  }

  /** A response whose key is no question's id changes nothing. */
  lemma {:induction false} IrrelevantKey(bank: seq<Question>, answers: map<string, string>, k: string, v: string)
    requires forall i :: 0 <= i < |bank| ==> bank[i].id != k
    ensures BankScores(bank, answers[k := v]) == BankScores(bank, answers)
    decreases |bank|
  {
    if |bank| > 0 {
      IrrelevantKey(bank[1..], answers, k, v);
    }
  }

  /** Two responses for questions of any dimensions can be taken in either order. */
  lemma ChooseCommutes(q: Question, a: string, q2: Question, a2: string, s: Scores)
    ensures Choose(q, a, Choose(q2, a2, s)) == Choose(q2, a2, Choose(q, a, s))
  {
    match FindOption(q.options, a)
    case None =>
    case Some(o) =>
      match FindOption(q2.options, a2)
      case None =>
      case Some(o2) => AddWeightsCommute(s, q.dimension, o.weight, q2.dimension, o2.weight);
  }

  /**
   * Taking one more response into account is one more `AnswerScores` step,
   * whichever question it answers: this is what makes the loop over the
   * response keys independent of their order.
   */
  lemma {:induction false} InsertAnswer(bank: seq<Question>, answers: map<string, string>, k: string, v: string)
    requires DistinctIds(bank)
    requires k !in answers
    ensures BankScores(bank, answers[k := v]) == AnswerScores(bank, BankScores(bank, answers), k, v)
    decreases |bank|
  {
    if |bank| > 0 {
      var q := bank[0];
      var rest := bank[1..];
      assert DistinctIds(rest);
      if q.id == k {
        IrrelevantKey(rest, answers, k, v);
      } else {
        InsertAnswer(rest, answers, k, v);
        var x := BankScores(rest, answers);
        match FindQuestion(rest, k)
        case None =>
        case Some(q2) =>
          if q.id in answers {
            ChooseCommutes(q, answers[q.id], q2, v, x);
          }
      }
    }
  }

  /** Responses that answer none of the bank's questions leave every accumulator at 0. */
  lemma {:induction false} NoAnswersNoScores(bank: seq<Question>, answers: map<string, string>)
    requires forall i :: 0 <= i < |bank| ==> bank[i].id !in answers
    ensures BankScores(bank, answers) == Uniform(0)
    decreases |bank|
  {
    if |bank| > 0 {
      NoAnswersNoScores(bank[1..], answers);
    }
  }

  /** The responses in `answers` whose keys are not in `pending`. */
  function Handled(answers: map<string, string>, pending: set<string>): map<string, string> {
    map k | k in answers && k !in pending :: answers[k]
  }

  /**
   * The loop of `processResponses`: for each response key, in whatever
   * order, look the question up and add the chosen option's weights. The
   * result is the order-independent reference accumulation.
   */
  method AccumulateResponses(answers: map<string, string>) returns (dimensionScores: Scores)
    ensures dimensionScores == BankScores(QuestionBank, answers)
  {
    dimensionScores := Uniform(0);
    var pending := answers.Keys;
    assert Handled(answers, pending) == map[];
    NoAnswersNoScores(QuestionBank, map[]);
    BankDistinct();
    while pending != {}
      invariant pending <= answers.Keys
      invariant dimensionScores == BankScores(QuestionBank, Handled(answers, pending))
      decreases |pending|
    {
      var questionId :| questionId in pending;
      var before := Handled(answers, pending);
      dimensionScores := AnswerScores(QuestionBank, dimensionScores, questionId, answers[questionId]);
      pending := pending - {questionId};
      assert Handled(answers, pending) == before[questionId := answers[questionId]];
      InsertAnswer(QuestionBank, before, questionId, answers[questionId]);
    }
    assert Handled(answers, pending) == answers;
  }

  // ---------------------------------------------------------------------
  // Dominant poles and the profile
  // ---------------------------------------------------------------------

  datatype DimensionProfile = DimensionProfile(dominant: Pole, scores: PolePair)

  /** `Math.max` of the two accumulators, then the first key whose value equals it. */
  function Dominant(pp: PolePair, d: Dimension): (r: Pole)
    ensures DimensionOf(r) == d
    ensures r == SecondPole(d) <==> pp.second > pp.first
  {
    var maxValue := if pp.first >= pp.second then pp.first else pp.second;
    if pp.first == maxValue then FirstPole(d) else SecondPole(d)
  }

  /**
   * The dominant pole is one with the largest accumulator, the
   * first-declared one on a tie (so 0/0 and 5/5 go to analytical,
   * internal, logic, structured and proactive).
   */
  lemma DominantIsLeader(s: Scores, d: Dimension)
    ensures Dominant(Pair(s, d), d) == Leader(s, d)
    ensures PoleValue(s, Dominant(Pair(s, d), d)) >= PoleValue(s, FirstPole(d))
    ensures PoleValue(s, Dominant(Pair(s, d), d)) >= PoleValue(s, SecondPole(d))
    ensures Dominant(Pair(s, d), d) == SecondPole(d) ==> PoleValue(s, SecondPole(d)) > PoleValue(s, FirstPole(d))
  {
  }

  /** The position of a dimension in declared order. */
  function DimensionIndex(d: Dimension): (i: nat)
    ensures i < |AllDimensions| && AllDimensions[i] == d
  {
    match d
    case ThinkingStyle => 0
    case EnergyDirection => 1
    case DecisionMaking => 2
    case InteractionPattern => 3
    case ResponseMode => 4
  }

  /** The profile of a score record: each dimension's dominant pole and its accumulators. */
  function ProfileOf(s: Scores): (profile: map<Dimension, DimensionProfile>)
    ensures Complete(profile)
    ensures forall d :: profile[d].dominant == Leader(s, d) && profile[d].scores == Pair(s, d)
  {
    var profile := map d | d in AllDimensions :: DimensionProfile(Dominant(Pair(s, d), d), Pair(s, d));
    assert forall d :: d in profile by {
      forall d ensures d in profile {
        assert AllDimensions[DimensionIndex(d)] == d;
      }
    }
    profile
  }

  /** Builds the profile one dimension at a time, in declared order. */
  method BuildProfile(dimensionScores: Scores) returns (personalityProfile: map<Dimension, DimensionProfile>)
    ensures personalityProfile == ProfileOf(dimensionScores)
  {
    personalityProfile := map[];
    var i := 0;
    while i < |AllDimensions|
      invariant 0 <= i <= |AllDimensions|
      invariant personalityProfile == map d | d in AllDimensions[..i] :: DimensionProfile(Dominant(Pair(dimensionScores, d), d), Pair(dimensionScores, d))
    {
      var dimension := AllDimensions[i];
      var scores := Pair(dimensionScores, dimension);
      personalityProfile := personalityProfile[dimension := DimensionProfile(Dominant(scores, dimension), scores)];
      i := i + 1;
    }
    assert AllDimensions[..i] == AllDimensions;
  }

  // ---------------------------------------------------------------------
  // generateTypeCode
  // ---------------------------------------------------------------------

  /** The letter of each pole; `I` stands for both intuitive and internal. */
  function LetterOf(p: Pole): (r: char)
    ensures 'A' <= r <= 'Z'
  {
    match p
    case Analytical => 'A'
    case Intuitive => 'I'
    case Internal => 'I'
    case External => 'E'
    case Logic => 'L'
    case Values => 'V'
    case Structured => 'S'
    case Flexible => 'F'
    case Proactive => 'P'
    case Reactive => 'R'
  }

  /** The code table of dimension `d`: a letter for its own two poles, nothing for any other pole. */
  function CodeLetter(d: Dimension, p: Pole): (r: Option<char>)
    ensures r.Some? <==> DimensionOf(p) == d
  {
    if DimensionOf(p) == d then Some(LetterOf(p)) else None
  }

  /** One segment of the code; a missing table entry prints as `undefined`. */
  function Segment(d: Dimension, p: Pole): (r: string)
    ensures DimensionOf(p) == d ==> |r| == 1 && 'A' <= r[0] <= 'Z'
    ensures DimensionOf(p) != d ==> r == "undefined"
  {
    match CodeLetter(d, p)
    case Some(c) => [c]
    case None => "undefined"
  }

  predicate Complete(profile: map<Dimension, DimensionProfile>) {
    forall d :: d in profile
  }

  /** Every dimension's dominant pole is one of that dimension's poles. */
  predicate WellFormed(profile: map<Dimension, DimensionProfile>)
    requires Complete(profile)
  {
    forall d :: DimensionOf(profile[d].dominant) == d
  }

  /** The five segments, in declared dimension order, joined by `-`. */
  function GenerateTypeCode(profile: map<Dimension, DimensionProfile>): (r: string)
    requires Complete(profile)
    ensures |r| >= 9
    ensures |r| == 9 <==> WellFormed(profile)
  {
    Segment(ThinkingStyle, profile[ThinkingStyle].dominant) + "-" +
    Segment(EnergyDirection, profile[EnergyDirection].dominant) + "-" +
    Segment(DecisionMaking, profile[DecisionMaking].dominant) + "-" +
    Segment(InteractionPattern, profile[InteractionPattern].dominant) + "-" +
    Segment(ResponseMode, profile[ResponseMode].dominant)
  }

  /** `^[A-Z]-[A-Z]-[A-Z]-[A-Z]-[A-Z]$` */
  predicate CodePattern(code: string) {
    && |code| == 9
    && forall i :: 0 <= i < 9 ==> if i % 2 == 0 then 'A' <= code[i] <= 'Z' else code[i] == '-'
  }

  /** A well-formed profile's code, letter by letter. */
  lemma TypeCodeShape(profile: map<Dimension, DimensionProfile>)
    requires Complete(profile) && WellFormed(profile)
    ensures GenerateTypeCode(profile) == [
      LetterOf(profile[ThinkingStyle].dominant), '-',
      LetterOf(profile[EnergyDirection].dominant), '-',
      LetterOf(profile[DecisionMaking].dominant), '-',
      LetterOf(profile[InteractionPattern].dominant), '-',
      LetterOf(profile[ResponseMode].dominant)]
  {
    assert DimensionOf(profile[ThinkingStyle].dominant) == ThinkingStyle;
    assert DimensionOf(profile[EnergyDirection].dominant) == EnergyDirection;
    assert DimensionOf(profile[DecisionMaking].dominant) == DecisionMaking;
    assert DimensionOf(profile[InteractionPattern].dominant) == InteractionPattern;
    assert DimensionOf(profile[ResponseMode].dominant) == ResponseMode;
  }

  /** The code matches the five-capital-letter pattern exactly when the profile is well formed. */
  lemma TypeCodePattern(profile: map<Dimension, DimensionProfile>)
    requires Complete(profile)
    ensures CodePattern(GenerateTypeCode(profile)) <==> WellFormed(profile)
    ensures !WellFormed(profile) ==> |GenerateTypeCode(profile)| > 9
  {
    if WellFormed(profile) {
      TypeCodeShape(profile);
    } else {
      var d :| DimensionOf(profile[d].dominant) != d;
      assert |Segment(d, profile[d].dominant)| == 9;
      assert |GenerateTypeCode(profile)| > 9;
    }
  }

  /** Reads one letter as a pole of dimension `d`. */
  function DecodeLetter(d: Dimension, c: char): (r: Option<Pole>)
    ensures r.Some? ==> DimensionOf(r.value) == d && LetterOf(r.value) == c
  {
    if c == LetterOf(FirstPole(d)) then Some(FirstPole(d))
    else if c == LetterOf(SecondPole(d)) then Some(SecondPole(d))
    else None
  }

  /** The inverse of `GenerateTypeCode`: the five dominant poles, in declared dimension order. */
  function ParseTypeCode(code: string): (r: Option<seq<Pole>>)
    ensures r.Some? ==> |r.value| == 5 && forall i :: 0 <= i < 5 ==> DimensionOf(r.value[i]) == AllDimensions[i]
  {
    if |code| != 9 || code[1] != '-' || code[3] != '-' || code[5] != '-' || code[7] != '-' then None
    else
      match (DecodeLetter(ThinkingStyle, code[0]), DecodeLetter(EnergyDirection, code[2]), DecodeLetter(DecisionMaking, code[4]),
             DecodeLetter(InteractionPattern, code[6]), DecodeLetter(ResponseMode, code[8]))
      case (Some(t), Some(e), Some(dm), Some(ip), Some(rm)) => Some([t, e, dm, ip, rm])
      case _ => None
  }

  /** Each pole is read back from its own letter. */
  lemma DecodeLetterOf(p: Pole)
    ensures DecodeLetter(DimensionOf(p), LetterOf(p)) == Some(p)
  {
  }

  /** Parsing a well-formed profile's code gives back its dominant poles. */
  lemma ParseGeneratedCode(profile: map<Dimension, DimensionProfile>)
    requires Complete(profile) && WellFormed(profile)
    ensures ParseTypeCode(GenerateTypeCode(profile)) == Some([
      profile[ThinkingStyle].dominant, profile[EnergyDirection].dominant, profile[DecisionMaking].dominant,
      profile[InteractionPattern].dominant, profile[ResponseMode].dominant])
  {
    TypeCodeShape(profile);
    assert DimensionOf(profile[ThinkingStyle].dominant) == ThinkingStyle;
    assert DimensionOf(profile[EnergyDirection].dominant) == EnergyDirection;
    assert DimensionOf(profile[DecisionMaking].dominant) == DecisionMaking;
    assert DimensionOf(profile[InteractionPattern].dominant) == InteractionPattern;
    assert DimensionOf(profile[ResponseMode].dominant) == ResponseMode;
    DecodeLetterOf(profile[ThinkingStyle].dominant);
    DecodeLetterOf(profile[EnergyDirection].dominant);
    DecodeLetterOf(profile[DecisionMaking].dominant);
    DecodeLetterOf(profile[InteractionPattern].dominant);
    DecodeLetterOf(profile[ResponseMode].dominant);
  }

  /** A code that parses is the code of every profile with those dominant poles. */
  lemma GenerateParsedCode(code: string, profile: map<Dimension, DimensionProfile>)
    requires Complete(profile)
    requires ParseTypeCode(code).Some?
    requires ParseTypeCode(code).value == [
      profile[ThinkingStyle].dominant, profile[EnergyDirection].dominant, profile[DecisionMaking].dominant,
      profile[InteractionPattern].dominant, profile[ResponseMode].dominant]
    ensures GenerateTypeCode(profile) == code
  {
    var ps := ParseTypeCode(code).value;
    assert DimensionOf(ps[0]) == ThinkingStyle && DimensionOf(ps[1]) == EnergyDirection;
    assert DimensionOf(ps[2]) == DecisionMaking && DimensionOf(ps[3]) == InteractionPattern;
    assert DimensionOf(ps[4]) == ResponseMode;
    assert WellFormed(profile);
    TypeCodeShape(profile);
  }

  /** Every key of the table has length 9 and `E` or `I` in the decision-making position. */
  lemma TableKeysShape()
    ensures forall k :: k in PersonalityTypes ==> |k| == 9 && (k[4] == 'E' || k[4] == 'I')
  {
  }

  /**
   * No generated code is a key of the table: a well-formed code has `L` or
   * `V` where every key has `E` or `I`, and any other code is longer than
   * every key.
   */
  lemma LookupAlwaysMisses(profile: map<Dimension, DimensionProfile>)
    requires Complete(profile)
    ensures GenerateTypeCode(profile) !in PersonalityTypes
  {
    var code := GenerateTypeCode(profile);
    TypeCodePattern(profile);
    if WellFormed(profile) {
      TypeCodeShape(profile);
      assert DimensionOf(profile[DecisionMaking].dominant) == DecisionMaking;
      assert code[4] == 'L' || code[4] == 'V';
    }
    NotAKey(code);
  }

  lemma NotAKey(code: string)
    requires |code| != 9 || code[4] == 'L' || code[4] == 'V'
    ensures code !in PersonalityTypes
  {
    TableKeysShape();
  }


  // ---------------------------------------------------------------------
  // calculateConfidence
  // ---------------------------------------------------------------------

  /**
   * One dimension's confidence, `Math.min(100, difference * 20)` with the
   * difference in tenths: 0 exactly on a tie, 100 once the poles are half
   * a point or more apart.
   */
  function DimensionConfidence(pp: PolePair): (c: nat)
    ensures c <= 100
    ensures c == 0 <==> pp.first == pp.second
    ensures c == 100 <==> pp.first >= pp.second + 50 || pp.second >= pp.first + 50
  {
    var difference := if pp.first >= pp.second then pp.first - pp.second else pp.second - pp.first;
    if 2 * difference < 100 then 2 * difference else 100
  }

  /** The summed confidences of the listed dimensions. */
  function TotalConfidence(s: Scores, dims: seq<Dimension>): (t: nat)
    ensures t <= 100 * |dims|
    decreases |dims|
  {
    if |dims| == 0 then 0
    else TotalConfidence(s, dims[..|dims| - 1]) + DimensionConfidence(Pair(s, dims[|dims| - 1]))
  }

  /** The total is at least each listed dimension's confidence. */
  lemma {:induction false} TotalCoversEach(s: Scores, dims: seq<Dimension>)
    ensures forall j :: 0 <= j < |dims| ==> TotalConfidence(s, dims) >= DimensionConfidence(Pair(s, dims[j]))
    decreases |dims|
  {
    if |dims| > 0 {
      var prefix := dims[..|dims| - 1];
      TotalCoversEach(s, prefix);
      assert forall j :: 0 <= j < |prefix| ==> prefix[j] == dims[j];
    }
  }

  /**
   * The rounded mean of the five dimension confidences: between 0 and
   * 100, 0 when every dimension is tied, and at least 20 when one
   * dimension is fully decided.
   */
  function Confidence(s: Scores): (r: nat)
    ensures r <= 100
    ensures (forall d :: Pair(s, d).first == Pair(s, d).second) ==> r == 0
    ensures (exists d :: DimensionConfidence(Pair(s, d)) == 100) ==> r >= 20
  {
    ConfidenceTotals(s);
    RoundDiv(TotalConfidence(s, AllDimensions), |AllDimensions|)
  }

  lemma ConfidenceTotals(s: Scores)
    ensures (forall d :: Pair(s, d).first == Pair(s, d).second) ==> TotalConfidence(s, AllDimensions) == 0
    ensures (exists d :: DimensionConfidence(Pair(s, d)) == 100) ==> TotalConfidence(s, AllDimensions) >= 100
  {
    if forall d :: Pair(s, d).first == Pair(s, d).second {
      TiedTotalZero(s, AllDimensions);
    }
    if exists d :: DimensionConfidence(Pair(s, d)) == 100 {
      var d :| DimensionConfidence(Pair(s, d)) == 100;
      TotalCoversEach(s, AllDimensions);
      assert AllDimensions[DimensionIndex(d)] == d;
    }
  }


  /** The total over all five dimensions, written out. */
  lemma TotalOfAll(s: Scores)
    ensures TotalConfidence(s, AllDimensions) ==
              DimensionConfidence(s.thinkingStyle) + DimensionConfidence(s.energyDirection) + DimensionConfidence(s.decisionMaking) +
              DimensionConfidence(s.interactionPattern) + DimensionConfidence(s.responseMode)
  {
    TotalOfFive(s, AllDimensions);
  }

  /** A five-dimension total, written out. */
  lemma TotalOfFive(s: Scores, dims: seq<Dimension>)
    requires |dims| == 5
    ensures TotalConfidence(s, dims) ==
              DimensionConfidence(Pair(s, dims[0])) + DimensionConfidence(Pair(s, dims[1])) + DimensionConfidence(Pair(s, dims[2])) +
              DimensionConfidence(Pair(s, dims[3])) + DimensionConfidence(Pair(s, dims[4]))
  {
    var d4, d3, d2, d1 := dims[..4], dims[..3], dims[..2], dims[..1];
    assert d4[..3] == d3 && d3[..2] == d2 && d2[..1] == d1 && d1[..0] == [];
    assert TotalConfidence(s, d1) == DimensionConfidence(Pair(s, dims[0]));
    assert TotalConfidence(s, d2) == TotalConfidence(s, d1) + DimensionConfidence(Pair(s, dims[1]));
    assert TotalConfidence(s, d3) == TotalConfidence(s, d2) + DimensionConfidence(Pair(s, dims[2]));
    assert TotalConfidence(s, d4) == TotalConfidence(s, d3) + DimensionConfidence(Pair(s, dims[3]));
  }

  lemma {:induction false} TiedTotalZero(s: Scores, dims: seq<Dimension>)
    requires forall d :: Pair(s, d).first == Pair(s, d).second
    ensures TotalConfidence(s, dims) == 0
    decreases |dims|
  {
    if |dims| > 0 {
      TiedTotalZero(s, dims[..|dims| - 1]);
    }
  }

  /** `Array.prototype.sort` with `(a, b) => b - a` on the two values of one dimension. */
  method SortDescending(values: array<nat>)
    requires values.Length == 2
    modifies values
    ensures values[0] >= values[1]
    ensures multiset(values[..]) == multiset(old(values[..]))
  {
    if values[0] < values[1] {
      values[0], values[1] := values[1], values[0];
    }
  }

  /** Two values in descending order that hold the same pair as `x, y`. */
  lemma SortedPair(a: nat, b: nat, x: nat, y: nat)
    requires multiset([a, b]) == multiset([x, y]) && a >= b
    ensures a - b == if x >= y then x - y else y - x
  {
    assert a in multiset([x, y]) && b in multiset([x, y]);
    if a == x {
      assert multiset([a, b])[b] == multiset([x, y])[b];
    } else {
      assert multiset([a, b])[x] == multiset([x, y])[x];
    }
  }

  /** One dimension's confidence, from a sorted copy of its two values. */
  method SpreadConfidence(scores: PolePair) returns (dimensionConfidence: nat)
    ensures dimensionConfidence == DimensionConfidence(scores)
  {
    var values := new nat[2];
    values[0], values[1] := scores.first, scores.second;
    assert values[..] == [scores.first, scores.second];
    SortDescending(values);
    assert values[..] == [values[0], values[1]];
    SortedPair(values[0], values[1], scores.first, scores.second);
    var difference := values[0] - values[1];
    dimensionConfidence := if difference * 2 < 100 then difference * 2 else 100;
  }

  /**
   * Sums the per-dimension confidences over a sorted copy of each
   * dimension's values and rounds their mean; the score record itself is
   * a value and is not changed.
   */
  method CalculateConfidence(dimensionScores: Scores) returns (confidence: nat)
    ensures confidence == Confidence(dimensionScores)
  {
    var totalConfidence := 0;
    var dimensionCount := 0;
    var i := 0;
    while i < |AllDimensions|
      invariant 0 <= i <= |AllDimensions|
      invariant dimensionCount == i
      invariant totalConfidence == TotalConfidence(dimensionScores, AllDimensions[..i])
    {
      var dimensionConfidence := SpreadConfidence(Pair(dimensionScores, AllDimensions[i]));
      totalConfidence := totalConfidence + dimensionConfidence;
      dimensionCount := dimensionCount + 1;
      assert AllDimensions[..i + 1][..i] == AllDimensions[..i];
      i := i + 1;
    }
    assert AllDimensions[..i] == AllDimensions;
    var rounded: int := if dimensionCount > 0 then RoundDiv(totalConfidence, dimensionCount) else 0;
    confidence := rounded;
  }

  // ---------------------------------------------------------------------
  // processResponses
  // ---------------------------------------------------------------------

  datatype InspectionResult = InspectionResult(
    profile: map<Dimension, DimensionProfile>,
    typeCode: string,
    typeDetails: TypeDetails,
    confidence: nat)

  /** Null, undefined or non-object responses are read as no responses. */
  function Answers(responses: Option<map<string, string>>): map<string, string> {
    responses.GetOr(map[])
  }

  /** What `processResponses` returns, stated on the order-independent accumulation. */
  function Inspection(responses: Option<map<string, string>>): (r: InspectionResult)
    ensures Complete(r.profile) && WellFormed(r.profile)
    ensures CodePattern(r.typeCode)
    ensures r.typeDetails == UniqueBlend
    ensures r.confidence <= 100
  {
    var s := BankScores(QuestionBank, Answers(responses));
    var profile := ProfileOf(s);
    var typeCode := GenerateTypeCode(profile);
    var result := InspectionResult(
      profile,
      typeCode,
      if typeCode in PersonalityTypes then PersonalityTypes[typeCode] else UniqueBlend,
      Confidence(s));
    LookupAlwaysMisses(profile);
    TypeCodePattern(profile);
    result
  }

  method ProcessResponses(responses: Option<map<string, string>>) returns (result: InspectionResult)
    ensures result == Inspection(responses)
    ensures Complete(result.profile) && WellFormed(result.profile)
    ensures CodePattern(result.typeCode)
    ensures result.typeDetails == UniqueBlend
    ensures result.confidence <= 100
    ensures forall d :: result.profile[d].dominant == Leader(BankScores(QuestionBank, Answers(responses)), d)
  {
    var answers := if responses.None? then map[] else responses.value;
    var dimensionScores := AccumulateResponses(answers);
    var personalityProfile := BuildProfile(dimensionScores);
    var typeCode := GenerateTypeCode(personalityProfile);
    var typeDetails := if typeCode in PersonalityTypes then PersonalityTypes[typeCode] else UniqueBlend;
    var confidence := CalculateConfidence(dimensionScores);
    result := InspectionResult(personalityProfile, typeCode, typeDetails, confidence);
  }


  // ---------------------------------------------------------------------
  // What the accumulation means
  // ---------------------------------------------------------------------

  /**
   * One response alone: an unknown question id or an unknown option id
   * adds nothing; a matched option raises the poles of its question's
   * dimension by its weights and leaves every other pole alone.
   */
  lemma AnswerEffect(s: Scores, id: string, answer: string)
    ensures FindQuestion(QuestionBank, id).None? ==> AnswerScores(QuestionBank, s, id, answer) == s
    ensures FindQuestion(QuestionBank, id).Some? && FindOption(FindQuestion(QuestionBank, id).value.options, answer).None? ==>
              AnswerScores(QuestionBank, s, id, answer) == s
    ensures FindQuestion(QuestionBank, id).Some? && FindOption(FindQuestion(QuestionBank, id).value.options, answer).Some? ==>
              var q := FindQuestion(QuestionBank, id).value;
              var o := FindOption(q.options, answer).value;
              forall p :: PoleValue(AnswerScores(QuestionBank, s, id, answer), p) ==
                            PoleValue(s, p) + (if DimensionOf(p) == q.dimension then Weight(o.weight, p) else 0)
  {
  }

  /** The weight the answer to `q` gives pole `p`: 0 when `q` is unanswered or the option is unknown. */
  function ChosenWeight(q: Question, answers: map<string, string>, p: Pole): nat {
    if q.id !in answers then 0
    else
      match FindOption(q.options, answers[q.id])
      case None => 0
      case Some(o) => Weight(o.weight, p)
  }

  lemma BankDimensions()
    ensures |QuestionBank| == |AllDimensions|
    ensures forall i :: 0 <= i < |QuestionBank| ==> QuestionBank[i].dimension == AllDimensions[i]
  {
  }

  /** One question's step of the reference accumulation, pole by pole. */
  lemma StepValue(q: Question, answers: map<string, string>, s: Scores, p: Pole)
    ensures PoleValue(if q.id in answers then Choose(q, answers[q.id], s) else s, p) ==
              PoleValue(s, p) + (if DimensionOf(p) == q.dimension then ChosenWeight(q, answers, p) else 0)
  {
  }

  lemma DimensionIndexOf(k: nat)
    requires k < |AllDimensions|
    ensures DimensionIndex(AllDimensions[k]) == k
  {
  }

  lemma {:induction false} SuffixScores(bank: seq<Question>, answers: map<string, string>, k: nat, p: Pole)
    requires |bank| == |AllDimensions| && forall i :: 0 <= i < |bank| ==> bank[i].dimension == AllDimensions[i]
    requires k <= |bank|
    ensures PoleValue(BankScores(bank[k..], answers), p) ==
              if k <= DimensionIndex(DimensionOf(p)) then ChosenWeight(bank[DimensionIndex(DimensionOf(p))], answers, p) else 0
    decreases |bank| - k
  {
    var i := DimensionIndex(DimensionOf(p));
    if k < |bank| {
      var q := bank[k];
      SuffixScores(bank, answers, k + 1, p);
      assert bank[k..][1..] == bank[k + 1..];
      var rest := BankScores(bank[k + 1..], answers);
      assert BankScores(bank[k..], answers) == if q.id in answers then Choose(q, answers[q.id], rest) else rest;
      StepValue(q, answers, rest, p);
      DimensionIndexOf(k);
      assert DimensionOf(p) == q.dimension <==> i == k;
    } else {
      assert bank[k..] == [];
    }
  }

  /**
   * Each pole holds exactly the weight of the option answered to its own
   * dimension's question, or 0: answers to other questions never reach it.
   */
  lemma BankScoresPole(answers: map<string, string>, p: Pole)
    ensures PoleValue(BankScores(QuestionBank, answers), p) == ChosenWeight(QuestionBank[DimensionIndex(DimensionOf(p))], answers, p)
  {
    BankDimensions();
    SuffixScores(QuestionBank, answers, 0, p);
    assert QuestionBank[0..] == QuestionBank;
  }

  // ---------------------------------------------------------------------
  // validateResponses
  // ---------------------------------------------------------------------

  datatype Validation = Validation(valid: bool, missing: seq<string>, message: string)

  /** `xs` is `ys` with some elements dropped, order kept. */
  predicate IsSubsequence(xs: seq<string>, ys: seq<string>)
    decreases |ys|
  {
    if |xs| == 0 then true
    else if |ys| == 0 then false
    else if xs[0] == ys[0] then IsSubsequence(xs[1..], ys[1..])
    else IsSubsequence(xs, ys[1..])
  }

  /** `required.filter(q => !provided.includes(q))` */
  function Missing(required: seq<string>, provided: set<string>): (r: seq<string>)
    ensures forall x :: x in r <==> x in required && x !in provided
    ensures IsSubsequence(r, required)
    decreases |required|
  {
    if |required| == 0 then []
    else if required[0] in provided then
      var r := Missing(required[1..], provided);
      assert IsSubsequence(r, required) by { SkipHead(r, required); }
      r
    else
      var r := Missing(required[1..], provided);
      assert ([required[0]] + r)[1..] == r;
      [required[0]] + r
  }

  /** A subsequence of the tail is a subsequence of the whole. */
  lemma {:induction false} SkipHead(xs: seq<string>, ys: seq<string>)
    requires |ys| > 0 && IsSubsequence(xs, ys[1..])
    ensures IsSubsequence(xs, ys)
    decreases |ys|, 0
  {
    if |xs| > 0 && xs[0] == ys[0] {
      DropFirst(xs, ys[1..]);
    }
  }

  /** Dropping the first element keeps a subsequence. */
  lemma {:induction false} DropFirst(xs: seq<string>, zs: seq<string>)
    requires |xs| > 0 && IsSubsequence(xs, zs)
    ensures IsSubsequence(xs[1..], zs)
    decreases |zs|, 1
  {
    if xs[0] == zs[0] {
      SkipHead(xs[1..], zs);
    } else {
      DropFirst(xs, zs[1..]);
      SkipHead(xs[1..], zs);
    }
  }

  /** The ids of a question list, in order (`questionBank.map(q => q.id)`). */
  function QuestionIds(bank: seq<Question>): (ids: seq<string>)
    ensures |ids| == |bank| && forall i :: 0 <= i < |bank| ==> ids[i] == bank[i].id
  {
    seq(|bank|, i requires 0 <= i < |bank| => bank[i].id)
  }

  /** Head of the message listing unanswered questions. */
  const MissingPrefix := "Missing responses for questions: "

  /**
   * The bank ids with no response, in bank order; valid exactly when there
   * are none. Extra keys and the answered option ids are not checked.
   */
  function ValidateResponses(responses: map<string, string>): (r: Validation)
    ensures forall id :: id in r.missing <==> id in BankIds && id !in responses
    ensures IsSubsequence(r.missing, BankIds)
    ensures r.valid <==> forall id :: id in BankIds ==> id in responses
    ensures r.valid <==> r.missing == []
    ensures r.message == if r.valid then "All responses provided" else MissingPrefix + Join(r.missing, ", ")
  {
    var requiredQuestions := QuestionIds(QuestionBank);
    assert requiredQuestions == BankIds by { BankQuestionIds(); }
    var missing := Missing(requiredQuestions, responses.Keys);
    NothingMissing(requiredQuestions, responses.Keys);
    var valid := |missing| == 0;
    Validation(valid, missing, if valid then "All responses provided" else MissingPrefix + Join(missing, ", "))
  }


  // ---------------------------------------------------------------------
  // Worked examples
  // ---------------------------------------------------------------------

  /** The responses answer q1 to q5 with the option ids `x1` to `x5` (other keys are ignored). */
  predicate Chose(answers: map<string, string>, x1: string, x2: string, x3: string, x4: string, x5: string) {
    && "q1" in answers && answers["q1"] == x1
    && "q2" in answers && answers["q2"] == x2
    && "q3" in answers && answers["q3"] == x3
    && "q4" in answers && answers["q4"] == x4
    && "q5" in answers && answers["q5"] == x5
  }

  /** The option with id `x` of any bank question is its option at index `k`. */
  lemma FindOptionAt(i: nat, x: string, k: nat)
    requires i < |QuestionBank| && k < 3 && x == ["a", "b", "c"][k]
    ensures FindOption(QuestionBank[i].options, x) == Some(QuestionBank[i].options[k])
  {
    BankShaped();
    var opts := QuestionBank[i].options;
    assert WellShaped(QuestionBank[i]);
    assert opts[0].id == "a" && opts[1].id == "b" && opts[2].id == "c";
    assert opts[1..][1..] == [opts[2]];
  }

  /** When the question of dimension `d` is answered with option `k`, the dimension holds that option's two weights. */
  lemma AnsweredDimension(answers: map<string, string>, k: nat, d: Dimension, a: nat, b: nat)
    requires k < 3
    requires QuestionBank[DimensionIndex(d)].id in answers && answers[QuestionBank[DimensionIndex(d)].id] == ["a", "b", "c"][k]
    requires Weight(QuestionBank[DimensionIndex(d)].options[k].weight, FirstPole(d)) == a
    requires Weight(QuestionBank[DimensionIndex(d)].options[k].weight, SecondPole(d)) == b
    ensures Pair(BankScores(QuestionBank, answers), d) == PolePair(a, b)
  {
    PolesOfDimension(FirstPole(d), d);
    PolesOfDimension(SecondPole(d), d);
    var i := DimensionIndex(d);
    var q := QuestionBank[i];
    var x := ["a", "b", "c"][k];
    FindOptionAt(i, x, k);
    var w := q.options[k].weight;
    assert ChosenWeight(q, answers, FirstPole(d)) == a;
    assert ChosenWeight(q, answers, SecondPole(d)) == b;
    BankScoresPole(answers, FirstPole(d));
    BankScoresPole(answers, SecondPole(d));
    PairOfPoles(BankScores(QuestionBank, answers), d);
  }

  const AllFirstTarget: Scores := Scores(PolePair(7, 3), PolePair(8, 2), PolePair(6, 4), PolePair(8, 2), PolePair(8, 2))

  lemma AllFirstScores(answers: map<string, string>)
    requires Chose(answers, "a", "a", "a", "a", "a")
    ensures BankScores(QuestionBank, answers) == AllFirstTarget
  {
    BankIdsAreIds();
    var s := BankScores(QuestionBank, answers);
    assert Pair(s, ThinkingStyle) == PolePair(7, 3) by { AnsweredDimension(answers, 0, ThinkingStyle, 7, 3); }
    assert Pair(s, EnergyDirection) == PolePair(8, 2) by { AnsweredDimension(answers, 0, EnergyDirection, 8, 2); }
    assert Pair(s, DecisionMaking) == PolePair(6, 4) by { AnsweredDimension(answers, 0, DecisionMaking, 6, 4); }
    assert Pair(s, InteractionPattern) == PolePair(8, 2) by { AnsweredDimension(answers, 0, InteractionPattern, 8, 2); }
    assert Pair(s, ResponseMode) == PolePair(8, 2) by { AnsweredDimension(answers, 0, ResponseMode, 8, 2); }
    PairsDetermineScores(s, AllFirstTarget);
  }

  /** The profile and code of scores whose leading poles are known. */
  lemma ProfileOfLeaders(s: Scores, a: Pole, b: Pole, c: Pole, d: Pole, e: Pole, code: string)
    requires Leader(s, ThinkingStyle) == a && Leader(s, EnergyDirection) == b && Leader(s, DecisionMaking) == c
    requires Leader(s, InteractionPattern) == d && Leader(s, ResponseMode) == e
    requires code == [LetterOf(a), '-', LetterOf(b), '-', LetterOf(c), '-', LetterOf(d), '-', LetterOf(e)]
    ensures var p := ProfileOf(s);
      && p[ThinkingStyle].dominant == a && p[EnergyDirection].dominant == b
      && p[DecisionMaking].dominant == c && p[InteractionPattern].dominant == d
      && p[ResponseMode].dominant == e
      && GenerateTypeCode(p) == code
  {
    TypeCodeShape(ProfileOf(s));
  }

  lemma AllFirstProfile(s: Scores)
    requires s == AllFirstTarget
    ensures var p := ProfileOf(s);
      && p[ThinkingStyle].dominant == Analytical && p[EnergyDirection].dominant == Internal
      && p[DecisionMaking].dominant == Logic && p[InteractionPattern].dominant == Structured
      && p[ResponseMode].dominant == Proactive
      && GenerateTypeCode(p) == "A-I-L-S-P"
  {
    ProfileOfLeaders(s, Analytical, Internal, Logic, Structured, Proactive, "A-I-L-S-P");
  }

  lemma AllFirstConfidence(s: Scores)
    requires s == AllFirstTarget
    ensures Confidence(s) == 10
  {
    TotalOfAll(s);
  }

  /** Option a everywhere: analytical, internal, logic, structured, proactive, confidence 10. */
  lemma AllFirstInspection(answers: map<string, string>)
    requires Chose(answers, "a", "a", "a", "a", "a")
    ensures var r := Inspection(Some(answers));
      && r.profile[ThinkingStyle].dominant == Analytical && r.profile[EnergyDirection].dominant == Internal
      && r.profile[DecisionMaking].dominant == Logic && r.profile[InteractionPattern].dominant == Structured
      && r.profile[ResponseMode].dominant == Proactive
      && r.typeCode == "A-I-L-S-P" && r.typeDetails == UniqueBlend && r.confidence == 10
  {
    AllFirstScores(answers);
    var s := BankScores(QuestionBank, answers);
    AllFirstProfile(s);
    AllFirstConfidence(s);
    LookupAlwaysMisses(ProfileOf(s));
  }

  const MixedTarget: Scores := Scores(PolePair(3, 7), PolePair(4, 6), PolePair(3, 7), PolePair(2, 8), PolePair(3, 7))

  /** One dimension of the c, b, b, c, b answers. */
  lemma MixedDimension(answers: map<string, string>, d: Dimension)
    requires Chose(answers, "c", "b", "b", "c", "b")
    ensures Pair(BankScores(QuestionBank, answers), d) == Pair(MixedTarget, d)
  {
    BankIdsAreIds();
    match d
    case ThinkingStyle => AnsweredDimension(answers, 2, d, 3, 7);
    case EnergyDirection => AnsweredDimension(answers, 1, d, 4, 6);
    case DecisionMaking => AnsweredDimension(answers, 1, d, 3, 7);
    case InteractionPattern => AnsweredDimension(answers, 2, d, 2, 8);
    case ResponseMode => AnsweredDimension(answers, 1, d, 3, 7);
  }

  lemma MixedScores(answers: map<string, string>)
    requires Chose(answers, "c", "b", "b", "c", "b")
    ensures BankScores(QuestionBank, answers) == MixedTarget
  {
    var s := BankScores(QuestionBank, answers);
    MixedDimension(answers, ThinkingStyle);
    MixedDimension(answers, EnergyDirection);
    MixedDimension(answers, DecisionMaking);
    MixedDimension(answers, InteractionPattern);
    MixedDimension(answers, ResponseMode);
    PairsDetermineScores(s, MixedTarget);
  }

  lemma MixedProfile(s: Scores)
    requires s == MixedTarget
    ensures var p := ProfileOf(s);
      && p[ThinkingStyle].dominant == Intuitive && p[EnergyDirection].dominant == External
      && p[DecisionMaking].dominant == Values && p[InteractionPattern].dominant == Flexible
      && p[ResponseMode].dominant == Reactive
      && GenerateTypeCode(p) == "I-E-V-F-R"
  {
    ProfileOfLeaders(s, Intuitive, External, Values, Flexible, Reactive, "I-E-V-F-R");
  }

  lemma MixedConfidence(s: Scores)
    requires s == MixedTarget
    ensures Confidence(s) == 8
  {
    TotalOfAll(s);
  }

  /** Answers c, b, b, c, b: intuitive, external, values, flexible, reactive, confidence 8. */
  lemma MixedInspection(answers: map<string, string>)
    requires Chose(answers, "c", "b", "b", "c", "b")
    ensures var r := Inspection(Some(answers));
      && r.profile[ThinkingStyle].dominant == Intuitive && r.profile[EnergyDirection].dominant == External
      && r.profile[DecisionMaking].dominant == Values && r.profile[InteractionPattern].dominant == Flexible
      && r.profile[ResponseMode].dominant == Reactive
      && r.typeCode == "I-E-V-F-R" && r.typeDetails == UniqueBlend && r.confidence == 8
  {
    MixedScores(answers);
    var s := BankScores(QuestionBank, answers);
    MixedProfile(s);
    MixedConfidence(s);
    LookupAlwaysMisses(ProfileOf(s));
  }

  lemma EmptyProfile(s: Scores)
    requires s == Uniform(0)
    ensures var p := ProfileOf(s);
      && p[ThinkingStyle].dominant == Analytical && p[EnergyDirection].dominant == Internal
      && p[DecisionMaking].dominant == Logic && p[InteractionPattern].dominant == Structured
      && p[ResponseMode].dominant == Proactive
      && GenerateTypeCode(p) == "A-I-L-S-P"
  {
    ProfileOfLeaders(s, Analytical, Internal, Logic, Structured, Proactive, "A-I-L-S-P");
  }

  /**
   * Responses naming no bank question (an empty object, say): every tie
   * goes to the first pole and confidence is 0.
   */
  lemma EmptyInspection(answers: map<string, string>)
    requires forall i :: 0 <= i < |BankIds| ==> BankIds[i] !in answers
    ensures var r := Inspection(Some(answers));
      && r.profile[ThinkingStyle].dominant == Analytical && r.profile[EnergyDirection].dominant == Internal
      && r.profile[DecisionMaking].dominant == Logic && r.profile[InteractionPattern].dominant == Structured
      && r.profile[ResponseMode].dominant == Proactive
      && r.typeCode == "A-I-L-S-P" && r.typeDetails == UniqueBlend && r.confidence == 0
  {
    EmptyScores(answers);
    var s := BankScores(QuestionBank, answers);
    EmptyProfile(s);
    EmptyConfidence(s);
    LookupAlwaysMisses(ProfileOf(s));
  }

  lemma EmptyConfidence(s: Scores)
    requires s == Uniform(0)
    ensures Confidence(s) == 0
  {
    TotalOfAll(s);
  }

  /** Missing responses (`null` or `undefined`) are processed as an empty object. */
  lemma NoResponses()
    ensures Inspection(None) == Inspection(Some(map[]))
  {
  }

  lemma EmptyScores(answers: map<string, string>)
    requires forall i :: 0 <= i < |BankIds| ==> BankIds[i] !in answers
    ensures BankScores(QuestionBank, answers) == Uniform(0)
  {
    BankIdsAreIds();
    NoAnswersNoScores(QuestionBank, answers);
  }

  /** The reported ids are those of the bank, in bank order, with no key in the responses. */
  lemma MissingOfResponses(responses: map<string, string>)
    ensures ValidateResponses(responses).missing == Missing(BankIds, responses.Keys)
  {
    BankQuestionIds();
  }

  /** When none of the ids is provided, all of them are missing. */
  lemma {:induction false} NoneProvided(required: seq<string>, provided: set<string>)
    requires forall i :: 0 <= i < |required| ==> required[i] !in provided
    ensures Missing(required, provided) == required
    decreases |required|
  {
    if |required| > 0 {
      NoneProvided(required[1..], provided);
    }
  }

  /** The bank ids joined as the validation message lists them. */
  lemma JoinBankIds()
    ensures Join(BankIds, ", ") == "q1, q2, q3, q4, q5"
  {
    var xs := BankIds;
    JoinFront(xs[3..], ", ");
    JoinFront(xs[2..], ", ");
    JoinFront(xs[1..], ", ");
    JoinFront(xs, ", ");
    assert xs[4..] == ["q5"] && xs[3..][1..] == xs[4..] && xs[2..][1..] == xs[3..] && xs[1..][1..] == xs[2..];
  }

  /**
   * Responses naming no bank question (none at all, or only unknown ids)
   * leave every question missing, listed in bank order.
   */
  lemma NothingAnswered(responses: map<string, string>)
    requires forall i :: 0 <= i < |BankIds| ==> BankIds[i] !in responses
    ensures ValidateResponses(responses) == Validation(false, BankIds, MissingPrefix + "q1, q2, q3, q4, q5")
  {
    MissingOfResponses(responses);
    NoneProvided(BankIds, responses.Keys);
    var r := ValidateResponses(responses);
    assert r.missing == BankIds && !r.valid;
    JoinBankIds();
  }

  /** With only the first two ids provided, the last three are missing. */
  lemma MissingAfterFirstTwo(provided: set<string>)
    requires "q1" in provided && "q2" in provided
    requires "q3" !in provided && "q4" !in provided && "q5" !in provided
    ensures Missing(BankIds, provided) == ["q3", "q4", "q5"]
  {
    var rest := BankIds[2..];
    assert rest == ["q3", "q4", "q5"];
    NoneProvided(rest, provided);
    assert BankIds[1..][1..] == rest;
  }

  /** Answers to the first two questions only: the other three are missing. */
  lemma FirstTwoAnswered(responses: map<string, string>)
    requires "q1" in responses && "q2" in responses
    requires "q3" !in responses && "q4" !in responses && "q5" !in responses
    ensures ValidateResponses(responses).missing == ["q3", "q4", "q5"]
  {
    MissingOfResponses(responses);
    MissingAfterFirstTwo(responses.Keys);
  }

}
