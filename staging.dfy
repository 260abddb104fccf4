/** Classification of a clearance value into one of five clinical stages,
    each with its own fixed label and advisory text.

    The bands, first match wins: above 90 Normal; 60 to 90 inclusive Leve;
    at least 30 and below 60 Moderada; at least 15 and below 30 Severa;
    everything else, negative values included, Terminal. */
module Staging {

  /** The five stages, from the healthiest to the most severe. */
  datatype Stage = Normal | Leve | Moderada | Severa | Terminal {

    /** Position in the order Normal < Leve < Moderada < Severa < Terminal. */
    function Severity(): (n: nat)
      ensures n < 5
      ensures n == 0 <==> this == Normal
      ensures n == 4 <==> this == Terminal
    {
      match this
      case Normal => 0
      case Leve => 1
      case Moderada => 2
      case Severa => 3
      case Terminal => 4
    }

    /** The label shown for the stage. */
    function Label(): string {
      match this
      case Normal => "Normal"
      case Leve => "Leve"
      case Moderada => "Moderada"
      case Severa => "Severa"
      case Terminal => "Terminal"
    }

    /** The advisory text shown with the stage. */
    function Advice(): string {
      match this
      case Normal => "Todo ok compadre/comadre, riñones al 100."
      case Leve => "A echarle una miradita, pero piola."
      case Moderada => "Ojo ahí, ajustar dosis."
      case Severa => "La cosa se puso peluda, control estricto."
      case Terminal => "Situación crítica, a urgencias."
    }
  }

  /** The band table: which clearance values belong to which stage. */
  predicate InBand(clearance: real, s: Stage) {
    match s
    case Normal => clearance > 90.0
    case Leve => 60.0 <= clearance <= 90.0
    case Moderada => 30.0 <= clearance < 60.0
    case Severa => 15.0 <= clearance < 30.0
    case Terminal => clearance < 15.0
  }

  /** The ordered threshold chain. */
  function Classify(clearance: real): (s: Stage)
    ensures InBand(clearance, s)
  {
    if clearance > 90.0 then Normal
    else if 60.0 <= clearance <= 90.0 then Leve
    else if 30.0 <= clearance < 60.0 then Moderada
    else if 15.0 <= clearance < 30.0 then Severa
    else Terminal
  }

  /** The (label, advisory text) pair for a clearance value. */
  function Recommend(clearance: real): (r: (string, string))
    ensures forall s: Stage :: InBand(clearance, s) ==> r == (s.Label(), s.Advice())
  {
    var s := Classify(clearance);
    BandsExclusive(clearance);
    (s.Label(), s.Advice())
  }

  /** No clearance value lies in two bands. */
  lemma BandsExclusive(clearance: real)
    ensures forall s1: Stage, s2: Stage :: InBand(clearance, s1) && InBand(clearance, s2) ==> s1 == s2
  {
  }

  /** Every real clearance value, negative ones included, lies in some band. */
  lemma BandsCover(clearance: real)
    ensures exists s: Stage :: InBand(clearance, s)
  {
    assert InBand(clearance, Classify(clearance));
  }

  /** The chain picks a stage exactly when the value lies in that stage's band. */
  lemma ClassifyIff(clearance: real, s: Stage)
    ensures Classify(clearance) == s <==> InBand(clearance, s)
  {
    BandsExclusive(clearance);
  }

  /** The boundaries: 90 and 60 are Leve, 30 is Moderada, 15 is Severa, and
      values just across each boundary fall in the neighbouring stage. */
  lemma Boundaries()
    ensures Classify(90.0001) == Normal && Classify(90.0) == Leve
    ensures Classify(60.0) == Leve && Classify(59.999) == Moderada
    ensures Classify(30.0) == Moderada && Classify(29.999) == Severa
    ensures Classify(15.0) == Severa && Classify(14.999) == Terminal
    ensures Classify(0.0) == Terminal && Classify(-1.0) == Terminal
  {
  }

  /** A higher clearance is never a more severe stage. */
  lemma Monotone(clearance1: real, clearance2: real)
    requires clearance1 <= clearance2
    ensures Classify(clearance2).Severity() <= Classify(clearance1).Severity()
  {
  }

  /** Different stages have different labels. */
  lemma LabelsDistinct(s1: Stage, s2: Stage)
    ensures s1.Label() == s2.Label() <==> s1 == s2
  {
  }

  /** The advisory text depends on the label alone: two clearance values with
      the same label get the same advice. */
  lemma AdviceFollowsLabel(clearance1: real, clearance2: real)
    requires Recommend(clearance1).0 == Recommend(clearance2).0
    ensures Recommend(clearance1).1 == Recommend(clearance2).1
  {
    LabelsDistinct(Classify(clearance1), Classify(clearance2));
  }
}
