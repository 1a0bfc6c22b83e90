/** The two enumerations declared at the top of GameManager.cs, and the
    ordinal arithmetic that SetNextMissionState performs on the second one. */
module States {

  /** The coarse game state. */
  datatype GameState = Intro | Room1 | Room2 | Victory | Defeat

  /** The mission milestones, in declaration order. */
  datatype MissionState =
    | None | Tutorial | Mission1 | Mission2 | Mission3 | Mission4 | Mission5 | Mission6 | Ending

  /** The number of declared mission states, which is what
      `Enum.GetValues(typeof(MissionState)).Length` yields. */
  const MissionCount: nat := 9

  /** The integer a mission state converts to: its position in the declaration. */
  function Ordinal(m: MissionState): (r: nat)
    ensures r < MissionCount
  {
    match m
    case None => 0
    case Tutorial => 1
    case Mission1 => 2
    case Mission2 => 3
    case Mission3 => 4
    case Mission4 => 5
    case Mission5 => 6
    case Mission6 => 7
    case Ending => 8
  }

  /** The cast `(MissionState)i` of an integer inside the declared range. */
  function MissionAt(i: nat): (m: MissionState)
    requires i < MissionCount
    ensures Ordinal(m) == i
  {
    if i == 0 then None
    else if i == 1 then Tutorial
    else if i == 2 then Mission1
    else if i == 3 then Mission2
    else if i == 4 then Mission3
    else if i == 5 then Mission4
    else if i == 6 then Mission5
    else if i == 7 then Mission6
    else Ending
  }

  /** Distinct mission states have distinct ordinals. */
  lemma OrdinalInjective(a: MissionState, b: MissionState)
    ensures Ordinal(a) == Ordinal(b) <==> a == b
  {
  }

  /** Casting an ordinal back gives the mission state it came from. */
  lemma OrdinalRoundTrip(m: MissionState)
    ensures MissionAt(Ordinal(m)) == m
  {
  }

  /** The mission SetNextMissionState moves to: one ordinal further, modulo
      the number of mission states. */
  function NextMission(m: MissionState): (r: MissionState)
    ensures Ordinal(r) == (Ordinal(m) + 1) % MissionCount
  {
    match m
    case None => Tutorial
    case Tutorial => Mission1
    case Mission1 => Mission2
    case Mission2 => Mission3
    case Mission3 => Mission4
    case Mission4 => Mission5
    case Mission5 => Mission6
    case Mission6 => Ending
    case Ending => None
  }

  /** The successor is what the cast of the incremented, reduced ordinal gives. */
  lemma NextMissionIsCast(m: MissionState)
    ensures NextMission(m) == MissionAt((Ordinal(m) + 1) % MissionCount)
  {
  }

  /** The successor never stays put, and the last milestone wraps to the first. */
  lemma NextMissionMoves(m: MissionState)
    ensures NextMission(m) != m
    ensures NextMission(Ending) == None
    ensures m != Ending ==> Ordinal(NextMission(m)) == Ordinal(m) + 1
  {
  }

  /** The mission reached after `k` successive calls of SetNextMissionState. */
  function Advance(m: MissionState, k: nat): MissionState
  {
    if k == 0 then m else NextMission(Advance(m, k - 1))
  }

  /** One more step on the cycle, taken after reducing, is one more step
      taken before it. */
  lemma StepMod(x: nat)
    ensures (x % MissionCount + 1) % MissionCount == (x + 1) % MissionCount
  {
  }

  /** `k` successor steps add `k` to the ordinal, modulo the number of states. */
  lemma {:induction false} AdvanceOrdinal(m: MissionState, k: nat)
    ensures Ordinal(Advance(m, k)) == (Ordinal(m) + k) % MissionCount
  {
    if k > 0 {
      var prev := Advance(m, k - 1);
      AdvanceOrdinal(m, k - 1);
      assert Ordinal(NextMission(prev)) == (Ordinal(prev) + 1) % MissionCount;
      StepMod(Ordinal(m) + k - 1);
    }
  }

  /** A position on the cycle comes back to itself after `k` steps exactly
      when `k` is a multiple of the cycle length. */
  lemma TurnReturns(o: nat, k: nat)
    requires o < MissionCount
    ensures (o + k) % MissionCount == o <==> k % MissionCount == 0
  {
    var q, r := k / MissionCount, k % MissionCount;
    assert o + k == (o + r) + MissionCount * q;
    assert (o + k) % MissionCount == (o + r) % MissionCount;
    assert (o + r) % MissionCount == if o + r < MissionCount then o + r else o + r - MissionCount;
  }

  /** The successor is a single cycle through all nine states: `k` steps
      bring a mission state back to itself exactly when `k` is a multiple
      of nine. */
  lemma MissionPeriod(m: MissionState, k: nat)
    ensures Advance(m, k) == m <==> k % MissionCount == 0
  {
    var a := Advance(m, k);
    AdvanceOrdinal(m, k);
    OrdinalInjective(a, m);
    TurnReturns(Ordinal(m), k);
  }

  /** Starting from None, the k-th successor is the k-th declared state. */
  lemma AdvanceFromNone(k: nat)
    requires k < MissionCount
    ensures Advance(None, k) == MissionAt(k)
  {
    var a := Advance(None, k);
    AdvanceOrdinal(None, k);
    OrdinalRoundTrip(a);
  }
}
