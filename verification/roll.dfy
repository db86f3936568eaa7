/**
 Rolling: one draw picks a face by scaling a random value in [0, 1) to an index
 (`rollDice`), and a roll request draws each die kind its requested number of
 times, in a fixed die order, and sums every draw (`handleRoll`).

 The random source is a parameter: `random[k]` is the value the k-th call of the
 random generator returns during one roll.
 */
module Roll {
  import opened Tallies
  import opened Dice

  /** Every value lies in [0, 1), as the random generator promises. */
  predicate UnitInterval(random: seq<real>)
  {
    forall k :: 0 <= k < |random| ==> 0.0 <= random[k] < 1.0
  }

  /** `Math.floor(r * n)`: the index a random value selects among `n` faces.
      It is always a valid index, and it is the greatest whole number not
      above `r * n`. */
  function DrawIndex(r: real, n: nat): (i: nat)
    requires 0.0 <= r < 1.0 && n > 0
    ensures i < n
    ensures i as real <= r * n as real < i as real + 1.0
  {
    assert r * n as real < n as real;
    (r * n as real).Floor
  }

  /** Each index owns the half-open interval [i/n, (i+1)/n) of random values,
      all of the same width, so each of the `n` faces is equally likely. */
  lemma DrawIndexInterval(r: real, n: nat, i: nat)
    requires 0.0 <= r < 1.0 && n > 0
    ensures DrawIndex(r, n) == i <==> i as real / n as real <= r < (i + 1) as real / n as real
  {
  }

  /** Scaling by a positive factor keeps the order of two reals, both ways. */
  lemma ScaleOrder(a: real, b: real, c: real)
    requires c > 0.0
    ensures a <= b <==> a * c <= b * c
    ensures a < b <==> a * c < b * c
  {
  }

  /** `rollDice`: the face the random value selects. It is always one of the
      die's faces. */
  function RollDice(sides: seq<Tally>, r: real): (t: Tally)
    requires |sides| > 0 && 0.0 <= r < 1.0
    ensures t in sides
  {
    sides[DrawIndex(r, |sides|)]
  }

  /** Every face of a die can come up: the value i/n selects face i. */
  lemma RollReachesEveryFace(sides: seq<Tally>, i: nat)
    requires i < |sides|
    ensures 0.0 <= i as real / |sides| as real < 1.0
    ensures RollDice(sides, i as real / |sides| as real) == sides[i]
  {
    var r := i as real / |sides| as real;
    assert r * |sides| as real == i as real;
    ScaleOrder(r, 1.0, |sides| as real);
    DrawIndexInterval(r, |sides|, i);
  }

  /** How many of each die kind the user asked for. The counts are plain
      integers: nothing rejects a negative count. */
  datatype Request = Request(
    boost: int,
    setback: int,
    ability: int,
    difficulty: int,
    proficiency: int,
    challenge: int,
    force: int)

  function Requested(req: Request, d: Die): int
  {
    match d
    case Boost => req.boost
    case Setback => req.setback
    case Ability => req.ability
    case Difficulty => req.difficulty
    case Proficiency => req.proficiency
    case Challenge => req.challenge
    case Force => req.force
  }

  /** How many dice of each kind one roll actually draws. */
  datatype Counts = Counts(
    boost: nat,
    setback: nat,
    ability: nat,
    difficulty: nat,
    proficiency: nat,
    challenge: nat,
    force: nat)

  function Rolled(c: Counts, d: Die): nat
  {
    match d
    case Boost => c.boost
    case Setback => c.setback
    case Ability => c.ability
    case Difficulty => c.difficulty
    case Proficiency => c.proficiency
    case Challenge => c.challenge
    case Force => c.force
  }

  /** The number of times `for (let i = 0; i < n; i++)` runs: `n` when
      positive, otherwise zero. */
  function Iterations(n: int): nat
  {
    if n > 0 then n else 0
  }

  /** The dice a request draws: each die kind as often as its loop runs. */
  function Drawn(req: Request): (c: Counts)
    ensures forall d :: Rolled(c, d) == Iterations(Requested(req, d))
  {
    Counts(Iterations(req.boost), Iterations(req.setback), Iterations(req.ability),
      Iterations(req.difficulty), Iterations(req.proficiency), Iterations(req.challenge),
      Iterations(req.force))
  }

  /** The number of faces one roll draws in all. */
  function TotalDice(c: Counts): nat
  {
    c.boost + c.setback + c.ability + c.difficulty + c.proficiency + c.challenge + c.force
  }

  /** Where the draws of die `d` start: after every draw of the dice before it.
      The group of `d` ends inside the roll. */
  function Offset(c: Counts, d: Die): (k: nat)
    ensures k + Rolled(c, d) <= TotalDice(c)
  {
    match d
    case Boost => 0
    case Setback => c.boost
    case Ability => c.boost + c.setback
    case Difficulty => c.boost + c.setback + c.ability
    case Proficiency => c.boost + c.setback + c.ability + c.difficulty
    case Challenge => c.boost + c.setback + c.ability + c.difficulty + c.proficiency
    case Force => c.boost + c.setback + c.ability + c.difficulty + c.proficiency + c.challenge
  }

  /** The die whose group of draws holds position `k` of a roll. */
  function DieAt(c: Counts, k: nat): (d: Die)
    requires k < TotalDice(c)
    ensures Offset(c, d) <= k < Offset(c, d) + Rolled(c, d)
  {
    if k < Offset(c, Setback) then Boost
    else if k < Offset(c, Ability) then Setback
    else if k < Offset(c, Difficulty) then Ability
    else if k < Offset(c, Proficiency) then Difficulty
    else if k < Offset(c, Challenge) then Proficiency
    else if k < Offset(c, Force) then Challenge
    else Force
  }

  /** The groups of different dice do not overlap, so a position inside the
      group of `d` belongs to `d`. */
  lemma DieAtGroup(c: Counts, d: Die, k: nat)
    requires Offset(c, d) <= k < Offset(c, d) + Rolled(c, d)
    ensures k < TotalDice(c) && DieAt(c, k) == d
  {
  }

  /** The first `n` draws of a roll, each pushed after the ones before it:
      draw `k` is taken from the list of the die whose group holds `k`, with
      the k-th random value. */
  function Draws(table: Die -> seq<Tally>, c: Counts, random: seq<real>, n: nat): (rolls: seq<Tally>)
    requires HasFaces(table)
    requires |random| == TotalDice(c) && UnitInterval(random) && n <= TotalDice(c)
    ensures |rolls| == n
  {
    if n == 0 then [] else Draws(table, c, random, n - 1) + [RollDice(table(DieAt(c, n - 1)), random[n - 1])]
  }

  /** Draw `k` is taken from the list of the die whose group holds `k`, with
      the k-th random value, however many draws follow it. */
  lemma {:induction false} DrawsAt(table: Die -> seq<Tally>, c: Counts, random: seq<real>, n: nat, k: nat)
    requires HasFaces(table)
    requires |random| == TotalDice(c) && UnitInterval(random) && k < n <= TotalDice(c)
    ensures Draws(table, c, random, n)[k] == RollDice(table(DieAt(c, k)), random[k])
  {
    if k < n - 1 {
      DrawsAt(table, c, random, n - 1, k);
    }
  }

  /** The faces one roll draws from a die table: one per die drawn. */
  function Rolls(table: Die -> seq<Tally>, c: Counts, random: seq<real>): (rolls: seq<Tally>)
    requires HasFaces(table)
    requires |random| == TotalDice(c) && UnitInterval(random)
    ensures |rolls| == TotalDice(c)
  {
    Draws(table, c, random, TotalDice(c))
  }

  /** The draws are grouped in die order: draw `j` of die `d` sits at the
      die's offset plus `j`, is drawn from that die's list, and uses the random
      value at its own position. */
  lemma RollsGroupAt(table: Die -> seq<Tally>, c: Counts, random: seq<real>, d: Die, j: nat)
    requires HasFaces(table)
    requires |random| == TotalDice(c) && UnitInterval(random) && j < Rolled(c, d)
    ensures Offset(c, d) + j < |Rolls(table, c, random)|
    ensures Rolls(table, c, random)[Offset(c, d) + j] == RollDice(table(d), random[Offset(c, d) + j])
  {
    DieAtGroup(c, d, Offset(c, d) + j);
    DrawsAt(table, c, random, TotalDice(c), Offset(c, d) + j);
  }

  /** Each die's group ends where the next one's starts, and the last ends
      with the roll. */
  lemma OffsetsChain(c: Counts)
    ensures Offset(c, Boost) == 0
    ensures Offset(c, Boost) + Rolled(c, Boost) == Offset(c, Setback)
    ensures Offset(c, Setback) + Rolled(c, Setback) == Offset(c, Ability)
    ensures Offset(c, Ability) + Rolled(c, Ability) == Offset(c, Difficulty)
    ensures Offset(c, Difficulty) + Rolled(c, Difficulty) == Offset(c, Proficiency)
    ensures Offset(c, Proficiency) + Rolled(c, Proficiency) == Offset(c, Challenge)
    ensures Offset(c, Challenge) + Rolled(c, Challenge) == Offset(c, Force)
    ensures Offset(c, Force) + Rolled(c, Force) == TotalDice(c)
  {
  }

  /** The loop `for (let i = 0; i < n; i++) rolls.push(rollDice(dice[d]))` for
      one die kind, `n` being the requested count: starting from as many
      draws as the dice before `d` take, it pushes exactly the draws of `d`,
      and nothing when `n` is not positive. */
  method RollGroup(table: Die -> seq<Tally>, req: Request, random: seq<real>, d: Die, rolls: seq<Tally>)
    returns (out: seq<Tally>)
    requires HasFaces(table)
    requires |random| == TotalDice(Drawn(req)) && UnitInterval(random)
    requires |rolls| == Offset(Drawn(req), d)
    ensures |out| == Offset(Drawn(req), d) + Rolled(Drawn(req), d)
    ensures out == rolls + Group(table, Drawn(req), random, d)
  {
    var c, n := Drawn(req), Requested(req, d);
    assert Rolled(c, d) == Iterations(n);
    out := rolls;
    var i := 0;
    while i < n
      invariant 0 <= i <= Rolled(c, d) && |out| == Offset(c, d) + i
      invariant out == rolls + GroupPrefix(table, c, random, d, |out|)
    {
      GroupStep(table, c, random, d, rolls, out);
      out := out + [RollDice(table(d), random[|out|])];
      i := i + 1;
    }
    GroupDone(table, c, random, d, rolls, out);
  }

  /** One turn of the loop of `d` pushes the group's next draw. */
  lemma GroupStep(table: Die -> seq<Tally>, c: Counts, random: seq<real>, d: Die, rolls: seq<Tally>, out: seq<Tally>)
    requires HasFaces(table)
    requires |random| == TotalDice(c) && UnitInterval(random)
    requires Offset(c, d) <= |out| < Offset(c, d) + Rolled(c, d)
    requires out == rolls + GroupPrefix(table, c, random, d, |out|)
    ensures |out| < |random|
    ensures out + [RollDice(table(d), random[|out|])]
      == rolls + GroupPrefix(table, c, random, d, |out + [RollDice(table(d), random[|out|])]|)
  {
    var x := RollDice(table(d), random[|out|]);
    var n := |out| + 1;
    assert |out + [x]| == n && n - 1 == |out|;
    assert GroupPrefix(table, c, random, d, n) == GroupPrefix(table, c, random, d, n - 1) + [x];
  }

  /** When the loop of `d` ends, it has pushed the whole group. */
  lemma GroupDone(table: Die -> seq<Tally>, c: Counts, random: seq<real>, d: Die, rolls: seq<Tally>, out: seq<Tally>)
    requires HasFaces(table)
    requires |random| == TotalDice(c) && UnitInterval(random)
    requires |out| == Offset(c, d) + Rolled(c, d)
    requires out == rolls + GroupPrefix(table, c, random, d, |out|)
    ensures out == rolls + Group(table, c, random, d)
  {
  }

  /** The draw collection of `handleRoll`: the seven loops, in die order. */
  method CollectRolls(table: Die -> seq<Tally>, req: Request, random: seq<real>) returns (rolls: seq<Tally>)
    requires HasFaces(table)
    requires |random| == TotalDice(Drawn(req)) && UnitInterval(random)
    ensures rolls == Rolls(table, Drawn(req), random)
  {
    OffsetsChain(Drawn(req));
    RollsAreGroups(table, Drawn(req), random);
    rolls := [];
    rolls := RollGroup(table, req, random, Boost, rolls);
    assert rolls == Group(table, Drawn(req), random, Boost);
    rolls := RollGroup(table, req, random, Setback, rolls);
    rolls := RollGroup(table, req, random, Ability, rolls);
    rolls := RollGroup(table, req, random, Difficulty, rolls);
    rolls := RollGroup(table, req, random, Proficiency, rolls);
    rolls := RollGroup(table, req, random, Challenge, rolls);
    rolls := RollGroup(table, req, random, Force, rolls);
  }

  /** The largest count of symbol `s` a roll can show: each die drawn
      contributes at most its best face for that symbol. */
  function Ceiling(c: Counts, s: Symbol): nat
  {
    c.boost * MaxFace(Boost, s) + c.setback * MaxFace(Setback, s)
    + c.ability * MaxFace(Ability, s) + c.difficulty * MaxFace(Difficulty, s)
    + c.proficiency * MaxFace(Proficiency, s) + c.challenge * MaxFace(Challenge, s)
    + c.force * MaxFace(Force, s)
  }

  /** The draws of die `d` up to position `n` of the roll, each pushed after
      the ones before it and drawn from that die's list with the random value
      at its own position. */
  function GroupPrefix(table: Die -> seq<Tally>, c: Counts, random: seq<real>, d: Die, n: nat): (g: seq<Tally>)
    requires HasFaces(table)
    requires |random| == TotalDice(c) && UnitInterval(random)
    requires Offset(c, d) <= n <= Offset(c, d) + Rolled(c, d)
    ensures |g| == n - Offset(c, d)
    ensures forall k :: 0 <= k < |g| ==> g[k] in table(d)
    decreases n - Offset(c, d)
  {
    if n == Offset(c, d) then []
    else GroupPrefix(table, c, random, d, n - 1) + [RollDice(table(d), random[n - 1])]
  }

  /** The draws of die `d` within a roll: `Rolled(c, d)` faces, each drawn
      from that die's list. */
  function Group(table: Die -> seq<Tally>, c: Counts, random: seq<real>, d: Die): (g: seq<Tally>)
    requires HasFaces(table)
    requires |random| == TotalDice(c) && UnitInterval(random)
    ensures |g| == Rolled(c, d)
    ensures forall j :: 0 <= j < |g| ==> g[j] in table(d)
  {
    GroupPrefix(table, c, random, d, Offset(c, d) + Rolled(c, d))
  }

  /** Partway into the group of `d`, up to position `n`, the draws are the
      draws before that group followed by the group's draws so far. */
  lemma {:induction false} DrawsIntoGroup(table: Die -> seq<Tally>, c: Counts, random: seq<real>, d: Die, n: nat)
    requires HasFaces(table)
    requires |random| == TotalDice(c) && UnitInterval(random)
    requires Offset(c, d) <= n <= Offset(c, d) + Rolled(c, d)
    ensures Draws(table, c, random, n)
      == Draws(table, c, random, Offset(c, d)) + GroupPrefix(table, c, random, d, n)
    decreases n - Offset(c, d)
  {
    if n > Offset(c, d) {
      var before, g := Draws(table, c, random, Offset(c, d)), GroupPrefix(table, c, random, d, n - 1);
      var x := RollDice(table(d), random[n - 1]);
      DrawsIntoGroup(table, c, random, d, n - 1);
      DieAtGroup(c, d, n - 1);
      assert before + g + [x] == before + (g + [x]);
    }
  }

  /** At the end of the group of `d`, the draws are the draws before that
      group followed by the whole group. */
  lemma DrawsThroughGroup(table: Die -> seq<Tally>, c: Counts, random: seq<real>, d: Die)
    requires HasFaces(table)
    requires |random| == TotalDice(c) && UnitInterval(random)
    ensures Draws(table, c, random, Offset(c, d) + Rolled(c, d))
      == Draws(table, c, random, Offset(c, d)) + Group(table, c, random, d)
  {
    DrawsIntoGroup(table, c, random, d, Offset(c, d) + Rolled(c, d));
  }

  /** The total of a run of faces of one die is at least zero and at most the
      run's length times the die's best face. */
  lemma {:induction false} GroupCeiling(table: Die -> seq<Tally>, group: seq<Tally>, d: Die, s: Symbol)
    requires WithinVocabulary(table)
    requires forall j :: 0 <= j < |group| ==> group[j] in table(d)
    ensures 0 <= Total(group, s) <= |group| * MaxFace(d, s)
  {
    forall j | 0 <= j < |group| ensures NonNegative(group[j]) && Count(group[j], s) <= MaxFace(d, s) {
    }
    TotalNonNegative(group, s);
    TotalAtMost(group, s, MaxFace(d, s));
  }

  /** The draws of a roll are the groups of the seven dice, one after another
      in die order. */
  lemma RollsAreGroups(table: Die -> seq<Tally>, c: Counts, random: seq<real>)
    requires HasFaces(table)
    requires |random| == TotalDice(c) && UnitInterval(random)
    ensures Rolls(table, c, random) == Group(table, c, random, Boost)
      + Group(table, c, random, Setback) + Group(table, c, random, Ability)
      + Group(table, c, random, Difficulty) + Group(table, c, random, Proficiency)
      + Group(table, c, random, Challenge) + Group(table, c, random, Force)
  {
    OffsetsChain(c);
    var g0, g1, g2 := Group(table, c, random, Boost), Group(table, c, random, Setback), Group(table, c, random, Ability);
    var g3, g4 := Group(table, c, random, Difficulty), Group(table, c, random, Proficiency);
    var g5, g6 := Group(table, c, random, Challenge), Group(table, c, random, Force);
    GroupFollows(table, c, random, Boost, []);
    assert [] + g0 == g0;
    GroupFollows(table, c, random, Setback, g0);
    GroupFollows(table, c, random, Ability, g0 + g1);
    GroupFollows(table, c, random, Difficulty, g0 + g1 + g2);
    GroupFollows(table, c, random, Proficiency, g0 + g1 + g2 + g3);
    GroupFollows(table, c, random, Challenge, g0 + g1 + g2 + g3 + g4);
    GroupFollows(table, c, random, Force, g0 + g1 + g2 + g3 + g4 + g5);
    DrawsComplete(table, c, random, g0 + g1 + g2 + g3 + g4 + g5 + g6);
  }

  /** If the draws before the group of `d` are `before`, the draws through
      that group are `before` followed by the group. */
  lemma GroupFollows(table: Die -> seq<Tally>, c: Counts, random: seq<real>, d: Die, before: seq<Tally>)
    requires HasFaces(table)
    requires |random| == TotalDice(c) && UnitInterval(random)
    requires |before| == Offset(c, d) && Draws(table, c, random, |before|) == before
    ensures |before + Group(table, c, random, d)| == Offset(c, d) + Rolled(c, d)
    ensures Draws(table, c, random, |before + Group(table, c, random, d)|) == before + Group(table, c, random, d)
  {
    DrawsThroughGroup(table, c, random, d);
  }

  /** Draws that cover the whole roll are the roll. */
  lemma DrawsComplete(table: Die -> seq<Tally>, c: Counts, random: seq<real>, all: seq<Tally>)
    requires HasFaces(table)
    requires |random| == TotalDice(c) && UnitInterval(random)
    requires |all| == TotalDice(c) && Draws(table, c, random, |all|) == all
    ensures Rolls(table, c, random) == all
  {
  }

  /** The sum `handleRoll` reports for the dice drawn and a sequence of random
      values: the sum of every draw. */
  function RollResult(table: Die -> seq<Tally>, c: Counts, random: seq<real>): Tally
    requires HasFaces(table)
    requires |random| == TotalDice(c) && UnitInterval(random)
  {
    SumSides(Rolls(table, c, random))
  }

  /** The seven per-die subtotals, added in die order. They add up to the
      reported sum. */
  function SubtotalSum(table: Die -> seq<Tally>, c: Counts, random: seq<real>): (t: Tally)
    requires HasFaces(table)
    requires |random| == TotalDice(c) && UnitInterval(random)
    ensures t == RollResult(table, c, random)
  {
    RollsAreGroups(table, c, random);
    var b, s, a, f := Group(table, c, random, Boost), Group(table, c, random, Setback),
      Group(table, c, random, Ability), Group(table, c, random, Difficulty);
    var p, h, o := Group(table, c, random, Proficiency), Group(table, c, random, Challenge),
      Group(table, c, random, Force);
    SumConcat(b, s);
    SumConcat(b + s, a);
    SumConcat(b + s + a, f);
    SumConcat(b + s + a + f, p);
    SumConcat(b + s + a + f + p, h);
    SumConcat(b + s + a + f + p + h, o);
    Add(Add(Add(Add(Add(Add(SumSides(b), SumSides(s)), SumSides(a)), SumSides(f)), SumSides(p)), SumSides(h)),
      SumSides(o))
  }

  /** One die's subtotal of symbol `s` lies between zero and that die's share
      of the ceiling. */
  lemma GroupSubtotal(table: Die -> seq<Tally>, c: Counts, random: seq<real>, d: Die, s: Symbol)
    requires HasFaces(table) && WithinVocabulary(table)
    requires |random| == TotalDice(c) && UnitInterval(random)
    ensures 0 <= Count(SumSides(Group(table, c, random, d)), s) <= Rolled(c, d) * MaxFace(d, s)
  {
    GroupCeiling(table, Group(table, c, random, d), d, s);
  }

  /** Seven subtotals, each within its die's share of the ceiling, combine
      into a tally within the ceiling. */
  lemma SubtotalsWithinCeiling(c: Counts, s: Symbol, b: Tally, k: Tally, a: Tally, f: Tally, p: Tally, h: Tally, o: Tally)
    requires 0 <= Count(b, s) <= Rolled(c, Boost) * MaxFace(Boost, s)
    requires 0 <= Count(k, s) <= Rolled(c, Setback) * MaxFace(Setback, s)
    requires 0 <= Count(a, s) <= Rolled(c, Ability) * MaxFace(Ability, s)
    requires 0 <= Count(f, s) <= Rolled(c, Difficulty) * MaxFace(Difficulty, s)
    requires 0 <= Count(p, s) <= Rolled(c, Proficiency) * MaxFace(Proficiency, s)
    requires 0 <= Count(h, s) <= Rolled(c, Challenge) * MaxFace(Challenge, s)
    requires 0 <= Count(o, s) <= Rolled(c, Force) * MaxFace(Force, s)
    ensures 0 <= Count(Add(Add(Add(Add(Add(Add(b, k), a), f), p), h), o), s) <= Ceiling(c, s)
  {
  }

  /** Every counter of a roll's sum is at least zero and at most the ceiling
      for that symbol. */
  lemma RollBounds(table: Die -> seq<Tally>, c: Counts, random: seq<real>, s: Symbol)
    requires HasFaces(table) && WithinVocabulary(table)
    requires |random| == TotalDice(c) && UnitInterval(random)
    ensures 0 <= Count(RollResult(table, c, random), s) <= Ceiling(c, s)
  {
    var total := SubtotalSum(table, c, random);
    GroupSubtotal(table, c, random, Boost, s);
    GroupSubtotal(table, c, random, Setback, s);
    GroupSubtotal(table, c, random, Ability, s);
    GroupSubtotal(table, c, random, Difficulty, s);
    GroupSubtotal(table, c, random, Proficiency, s);
    GroupSubtotal(table, c, random, Challenge, s);
    GroupSubtotal(table, c, random, Force, s);
    SubtotalsWithinCeiling(c, s,
      SumSides(Group(table, c, random, Boost)), SumSides(Group(table, c, random, Setback)),
      SumSides(Group(table, c, random, Ability)), SumSides(Group(table, c, random, Difficulty)),
      SumSides(Group(table, c, random, Proficiency)), SumSides(Group(table, c, random, Challenge)),
      SumSides(Group(table, c, random, Force)));
  }

  /** A request whose counts are all zero or negative draws nothing and sums
      to the blank tally. */
  lemma EmptyRollIsBlank(table: Die -> seq<Tally>, req: Request, random: seq<real>)
    requires HasFaces(table)
    requires random == [] && forall d :: Requested(req, d) <= 0
    ensures TotalDice(Drawn(req)) == 0
    ensures RollResult(table, Drawn(req), random) == Blank
  {
    var c := Drawn(req);
    assert Rolled(c, Boost) == Rolled(c, Setback) == Rolled(c, Ability) == Rolled(c, Difficulty) == 0;
    assert Rolled(c, Proficiency) == Rolled(c, Challenge) == Rolled(c, Force) == 0;
  }

  /** Triumph needs a Proficiency die, despair a Challenge die, and dark or
      light a Force die; none of the other dice can show them. */
  lemma RollVocabulary(table: Die -> seq<Tally>, c: Counts, random: seq<real>)
    requires HasFaces(table) && WithinVocabulary(table)
    requires |random| == TotalDice(c) && UnitInterval(random)
    ensures RollResult(table, c, random).triumph <= c.proficiency
    ensures RollResult(table, c, random).despair <= c.challenge
    ensures RollResult(table, c, random).dark <= 2 * c.force
    ensures RollResult(table, c, random).light <= 2 * c.force
  {
    forall s ensures 0 <= Count(RollResult(table, c, random), s) <= Ceiling(c, s) {
      RollBounds(table, c, random, s);
    }
    CeilingVocabulary(c, RollResult(table, c, random));
  }

  lemma CeilingVocabulary(c: Counts, t: Tally)
    requires forall s :: Count(t, s) <= Ceiling(c, s)
    ensures t.triumph <= c.proficiency
    ensures t.despair <= c.challenge
    ensures t.dark <= 2 * c.force
    ensures t.light <= 2 * c.force
  {
    assert Count(t, Triumph) <= Ceiling(c, Triumph) == c.proficiency;
    assert Count(t, Despair) <= Ceiling(c, Despair) == c.challenge;
    assert Count(t, Dark) <= Ceiling(c, Dark) == 2 * c.force;
    assert Count(t, Light) <= Ceiling(c, Light) == 2 * c.force;
  }

  /** `handleRoll` without the form and display, on the application's die
      table: collect every draw, then sum them. The draws and the sum are the
      reference ones for the dice the request draws, no counter is negative or
      above its ceiling, and a request that draws nothing gives the blank
      tally. */
  method HandleRoll(req: Request, random: seq<real>) returns (rolls: seq<Tally>, result: Tally)
    requires |random| == TotalDice(Drawn(req)) && UnitInterval(random)
    ensures rolls == Rolls(Sides, Drawn(req), random) && |rolls| == TotalDice(Drawn(req))
    ensures result == RollResult(Sides, Drawn(req), random)
    ensures forall s :: 0 <= Count(result, s) <= Ceiling(Drawn(req), s)
    ensures TotalDice(Drawn(req)) == 0 ==> result == Blank
  {
    SidesIsDieTable();
    rolls := CollectRolls(Sides, req, random);
    result := SumSides(rolls);
    forall s ensures 0 <= Count(result, s) <= Ceiling(Drawn(req), s) {
      RollBounds(Sides, Drawn(req), random, s);
    }
  }
}
