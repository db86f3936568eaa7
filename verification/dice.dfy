/**
 The die tables: the named faces built from the blank tally, and for each of the
 seven die kinds its ordered list of faces. A face that occurs several times in
 a list is drawn proportionally more often.
 */
module Dice {
  import opened Tallies

  /** The seven die kinds, in the order in which a roll draws them. */
  datatype Die = Boost | Setback | Ability | Difficulty | Proficiency | Challenge | Force

  // The named faces, each the blank tally with a few counters set.
  const SuccessFace: Tally := Blank.(success := 1)
  const SuccessAdvantageFace: Tally := Blank.(success := 1, advantage := 1)
  const SuccessSuccessFace: Tally := Blank.(success := 2)
  const AdvantageFace: Tally := Blank.(advantage := 1)
  const AdvantageAdvantageFace: Tally := Blank.(advantage := 2)
  const FailureFace: Tally := Blank.(failure := 1)
  const FailureFailureFace: Tally := Blank.(failure := 2)
  const ThreatFace: Tally := Blank.(threat := 1)
  const ThreatThreatFace: Tally := Blank.(threat := 2)
  const FailureThreatFace: Tally := Blank.(failure := 1, threat := 1)
  const TriumphFace: Tally := Blank.(triumph := 1)
  const DespairFace: Tally := Blank.(despair := 1)
  const DarkFace: Tally := Blank.(dark := 1)
  const DarkDarkFace: Tally := Blank.(dark := 2)
  const LightFace: Tally := Blank.(light := 1)
  const LightLightFace: Tally := Blank.(light := 2)

  /** The number of physical sides of each die: d6, d6, d8, d8, d12, d12, d12. */
  function PhysicalSides(d: Die): nat
  {
    match d
    case Boost | Setback => 6
    case Ability | Difficulty => 8
    case Proficiency | Challenge | Force => 12
  }

  /** The most of symbol `s` that one face of die `d` can show. Zero means the
      symbol is outside that die's vocabulary: only the Force die shows dark and
      light, only the Proficiency die shows triumph, only the Challenge die
      shows despair. */
  function MaxFace(d: Die, s: Symbol): nat
  {
    match (d, s)
    case (Boost, Success) => 1
    case (Boost, Advantage) => 2
    case (Setback, Failure) => 1
    case (Setback, Threat) => 1
    case (Ability, Success) => 2
    case (Ability, Advantage) => 2
    case (Difficulty, Failure) => 2
    case (Difficulty, Threat) => 2
    case (Proficiency, Success) => 2
    case (Proficiency, Advantage) => 2
    case (Proficiency, Triumph) => 1
    case (Challenge, Failure) => 2
    case (Challenge, Threat) => 2
    case (Challenge, Despair) => 1
    case (Force, Dark) => 2
    case (Force, Light) => 2
    case _ => 0
  }

  // The face list of each die, in the order the application lists them.
  const BoostSides: seq<Tally> := [
    Blank, Blank, SuccessFace, SuccessAdvantageFace, AdvantageAdvantageFace, AdvantageFace]
  const SetbackSides: seq<Tally> := [
    Blank, Blank, FailureFace, FailureFace, ThreatFace, ThreatFace]
  const AbilitySides: seq<Tally> := [
    Blank, SuccessFace, SuccessFace, SuccessSuccessFace,
    AdvantageFace, AdvantageFace, SuccessAdvantageFace, AdvantageAdvantageFace]
  const DifficultySides: seq<Tally> := [
    Blank, FailureFace, FailureFailureFace, ThreatFace,
    ThreatFace, ThreatFace, ThreatThreatFace, FailureThreatFace]
  const ProficiencySides: seq<Tally> := [
    Blank, SuccessFace, SuccessFace, SuccessSuccessFace,
    SuccessSuccessFace, AdvantageFace, SuccessAdvantageFace, SuccessAdvantageFace,
    SuccessAdvantageFace, AdvantageAdvantageFace, AdvantageAdvantageFace, TriumphFace]
  const ChallengeSides: seq<Tally> := [
    Blank, FailureFace, FailureFace, FailureFailureFace,
    FailureFailureFace, ThreatFace, ThreatFace, FailureThreatFace,
    FailureThreatFace, ThreatThreatFace, ThreatThreatFace, DespairFace]
  const ForceSides: seq<Tally> := [
    DarkFace, DarkFace, DarkFace, DarkFace,
    DarkFace, DarkFace, DarkDarkFace, LightFace,
    LightFace, LightLightFace, LightLightFace, LightLightFace]

  /** The ordered face list of each die. Every list has one entry per physical
      side of its die, so none is empty and a draw is always defined. */
  function Sides(d: Die): (r: seq<Tally>)
    ensures |r| == PhysicalSides(d) > 0
  {
    match d
    case Boost => BoostSides
    case Setback => SetbackSides
    case Ability => AbilitySides
    case Difficulty => DifficultySides
    case Proficiency => ProficiencySides
    case Challenge => ChallengeSides
    case Force => ForceSides
  }

  /** Every non-zero bound of `MaxFace` is shown by some face of its die, so
      the bound is the most that die can show, not merely an upper limit. */
  lemma MaxFaceAttained(d: Die, s: Symbol)
    requires MaxFace(d, s) > 0
    ensures exists i :: 0 <= i < |Sides(d)| && Count(Sides(d)[i], s) == MaxFace(d, s)
  {
    var i := match (d, s)
      case (Boost, Success) => 2
      case (Boost, Advantage) => 4
      case (Setback, Failure) => 2
      case (Setback, Threat) => 4
      case (Ability, Success) => 3
      case (Ability, Advantage) => 7
      case (Difficulty, Failure) => 2
      case (Difficulty, Threat) => 6
      case (Proficiency, Success) => 3
      case (Proficiency, Advantage) => 9
      case (Proficiency, Triumph) => 11
      case (Challenge, Failure) => 3
      case (Challenge, Threat) => 9
      case (Challenge, Despair) => 11
      case (Force, Dark) => 6
      case (Force, Light) => 9
      case _ => 0;
    assert 0 <= i < |Sides(d)| && Count(Sides(d)[i], s) == MaxFace(d, s);
  }

  /** Face `i` of die `d`. No face has a negative counter, none exceeds its
      die's vocabulary, and every Force face shows at least one dark or light
      symbol. */
  function Face(d: Die, i: nat): (t: Tally)
    requires i < PhysicalSides(d)
    ensures NonNegative(t)
    ensures forall s :: Count(t, s) <= MaxFace(d, s)
    ensures d == Force ==> t.dark + t.light >= 1
  {
    Sides(d)[i]
  }

  /** What a draw needs of a die table: every die has at least one face. */
  predicate HasFaces(table: Die -> seq<Tally>)
  {
    forall d :: |table(d)| > 0
  }

  /** What the bounds on a roll need of a die table: every face is
      non-negative and within its die's vocabulary. */
  predicate WithinVocabulary(table: Die -> seq<Tally>)
  {
    forall d, t :: t in table(d) ==> NonNegative(t) && forall s :: Count(t, s) <= MaxFace(d, s)
  }

  /** The application's table is such a table. */
  lemma SidesIsDieTable()
    ensures HasFaces(Sides) && WithinVocabulary(Sides)
  {
    forall d, t | t in Sides(d) ensures NonNegative(t) && forall s :: Count(t, s) <= MaxFace(d, s) {
      FaceBounds(d, t);
    }
  }

  /** What every face of a die promises, for a face known only to be one of them. */
  lemma FaceBounds(d: Die, t: Tally)
    requires t in Sides(d)
    ensures NonNegative(t)
    ensures forall s :: Count(t, s) <= MaxFace(d, s)
  {
    var i :| 0 <= i < |Sides(d)| && Sides(d)[i] == t;
    assert t == Face(d, i);
  }

  /** Force faces carry only dark and light; the other six dice never carry
      dark or light. */
  lemma ForceVocabularyDisjoint(d: Die, i: int)
    requires 0 <= i < |Sides(d)|
    ensures d == Force ==> Sides(d)[i] == Blank.(dark := Sides(d)[i].dark, light := Sides(d)[i].light)
    ensures d != Force ==> Sides(d)[i].dark == 0 && Sides(d)[i].light == 0
  {
  }

  /** Triumph appears only on the Proficiency die and despair only on the
      Challenge die, each on exactly its last face. */
  lemma TriumphAndDespairFaces(d: Die, i: int)
    requires 0 <= i < |Sides(d)|
    ensures Sides(d)[i].triumph > 0 <==> d == Proficiency && i == 11
    ensures Sides(d)[i].despair > 0 <==> d == Challenge && i == 11
  {
  }
}
