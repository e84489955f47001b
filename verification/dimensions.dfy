/**
 * The five fixed bipolar dimensions of the Teto-Egen framework and the
 * per-pole score record both engines fill in.
 */
module Dimensions {

  datatype Dimension = ThinkingStyle | EnergyDirection | DecisionMaking | InteractionPattern | ResponseMode

  /** The dimensions in their declared order. */
  const AllDimensions: seq<Dimension> :=
    [ThinkingStyle, EnergyDirection, DecisionMaking, InteractionPattern, ResponseMode]

  datatype Pole =
    | Analytical | Intuitive
    | Internal | External
    | Logic | Values
    | Structured | Flexible
    | Proactive | Reactive

  /** The pole declared first in a dimension; it wins every tie. */
  function FirstPole(d: Dimension): Pole {
    match d
    case ThinkingStyle => Analytical
    case EnergyDirection => Internal
    case DecisionMaking => Logic
    case InteractionPattern => Structured
    case ResponseMode => Proactive
  }

  function SecondPole(d: Dimension): Pole {
    match d
    case ThinkingStyle => Intuitive
    case EnergyDirection => External
    case DecisionMaking => Values
    case InteractionPattern => Flexible
    case ResponseMode => Reactive
  }

  function DimensionOf(p: Pole): Dimension {
    match p
    case Analytical | Intuitive => ThinkingStyle
    case Internal | External => EnergyDirection
    case Logic | Values => DecisionMaking
    case Structured | Flexible => InteractionPattern
    case Proactive | Reactive => ResponseMode
  }

  /** Every pole is one of the two poles of its dimension, and the two differ. */
  lemma PolesOfDimension(p: Pole, d: Dimension)
    ensures DimensionOf(p) == d <==> p == FirstPole(d) || p == SecondPole(d)
    ensures FirstPole(d) != SecondPole(d)
  {
  }

  /** The two accumulators of one dimension, first-declared pole first. */
  datatype PolePair = PolePair(first: nat, second: nat)

  /** Raw scores: every dimension present with both of its poles. */
  datatype Scores = Scores(
    thinkingStyle: PolePair,
    energyDirection: PolePair,
    decisionMaking: PolePair,
    interactionPattern: PolePair,
    responseMode: PolePair)

  function Pair(s: Scores, d: Dimension): PolePair {
    match d
    case ThinkingStyle => s.thinkingStyle
    case EnergyDirection => s.energyDirection
    case DecisionMaking => s.decisionMaking
    case InteractionPattern => s.interactionPattern
    case ResponseMode => s.responseMode
  }

  /** `s` with the accumulators of dimension `d` replaced. */
  function WithPair(s: Scores, d: Dimension, pp: PolePair): Scores {
    match d
    case ThinkingStyle => s.(thinkingStyle := pp)
    case EnergyDirection => s.(energyDirection := pp)
    case DecisionMaking => s.(decisionMaking := pp)
    case InteractionPattern => s.(interactionPattern := pp)
    case ResponseMode => s.(responseMode := pp)
  }

  /** The accumulator of one pole. */
  function PoleValue(s: Scores, p: Pole): nat {
    var pp := Pair(s, DimensionOf(p));
    if p == FirstPole(DimensionOf(p)) then pp.first else pp.second
  }

  /** A dimension's pair holds the values of its two poles. */
  lemma PairOfPoles(s: Scores, d: Dimension)
    ensures Pair(s, d) == PolePair(PoleValue(s, FirstPole(d)), PoleValue(s, SecondPole(d)))
  {
  }

  /** `s` with the accumulator of pole `p` set to `v`. */
  function WithPole(s: Scores, p: Pole, v: nat): Scores {
    var d := DimensionOf(p);
    var pp := Pair(s, d);
    WithPair(s, d, if p == FirstPole(d) then pp.(first := v) else pp.(second := v))
  }

  /** Replacing one dimension's accumulators changes its two poles and no other. */
  lemma WithPairValues(s: Scores, d: Dimension, pp: PolePair)
    ensures forall p :: PoleValue(WithPair(s, d, pp), p) ==
                          if DimensionOf(p) != d then PoleValue(s, p) else if p == FirstPole(d) then pp.first else pp.second
  {
  }

  /** Two score records with the same value at every pole are the same record. */
  lemma ScoresExtensional(s: Scores, t: Scores)
    requires forall p :: PoleValue(s, p) == PoleValue(t, p)
    ensures s == t
  {
    assert PoleValue(s, Analytical) == PoleValue(t, Analytical) && PoleValue(s, Intuitive) == PoleValue(t, Intuitive);
    assert PoleValue(s, Internal) == PoleValue(t, Internal) && PoleValue(s, External) == PoleValue(t, External);
    assert PoleValue(s, Logic) == PoleValue(t, Logic) && PoleValue(s, Values) == PoleValue(t, Values);
    assert PoleValue(s, Structured) == PoleValue(t, Structured) && PoleValue(s, Flexible) == PoleValue(t, Flexible);
    assert PoleValue(s, Proactive) == PoleValue(t, Proactive) && PoleValue(s, Reactive) == PoleValue(t, Reactive);
  }

  /** Two records with the same pair in every dimension are equal. */
  lemma PairsDetermineScores(s: Scores, t: Scores)
    requires Pair(s, ThinkingStyle) == Pair(t, ThinkingStyle) && Pair(s, EnergyDirection) == Pair(t, EnergyDirection)
    requires Pair(s, DecisionMaking) == Pair(t, DecisionMaking) && Pair(s, InteractionPattern) == Pair(t, InteractionPattern)
    requires Pair(s, ResponseMode) == Pair(t, ResponseMode)
    ensures s == t
  {
  }

  /** The record with every pole at `v`. */
  function Uniform(v: nat): (r: Scores)
    ensures forall p :: PoleValue(r, p) == v
  {
    Scores(PolePair(v, v), PolePair(v, v), PolePair(v, v), PolePair(v, v), PolePair(v, v))
  }

  /**
   * The pole a `>=` comparison picks in dimension `d`: one with the larger
   * accumulator, the first-declared one on a tie.
   */
  function Leader(s: Scores, d: Dimension): (p: Pole)
    ensures DimensionOf(p) == d
    ensures PoleValue(s, p) >= PoleValue(s, FirstPole(d)) && PoleValue(s, p) >= PoleValue(s, SecondPole(d))
    ensures p == SecondPole(d) <==> PoleValue(s, SecondPole(d)) > PoleValue(s, FirstPole(d))
  {
    if Pair(s, d).first >= Pair(s, d).second then FirstPole(d) else SecondPole(d)
  }

  /** `Math.round(n / d)` for `n >= 0`, `d > 0`: round half up, exactly. */
  function RoundDiv(n: nat, d: nat): (r: nat)
    requires d > 0
    ensures r * d * 2 <= 2 * n + d < (r + 1) * d * 2
  {
    (2 * n + d) / (2 * d)
  }
}
