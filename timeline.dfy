/** The screens the game passes through and the timeline of the animation
    that leads from the mulligan screen into white's first turn. */
module Timeline {
  import opened Values

  /** Which screen is active, that is which `drawfunc` `setState` last
      installed. `Loading` is the time before the first `setState`, while
      the images load. */
  datatype Screen = Loading | Mulligan | MulliganAnim | TurnW | TurnB

  /** The names `setState` accepts and the screen each enters. Any other
      name is an error (the game raises an alert and changes nothing). */
  function ParseState(name: string): (r: Option<Screen>)
    ensures r.Some? ==> r.value != Loading && StateName(r.value) == name
  {
    if name == "mulligan" then Some(Mulligan)
    else if name == "mulligan_anim" then Some(MulliganAnim)
    else if name == "turn_w" then Some(TurnW)
    else if name == "turn_b" then Some(TurnB)
    else None
  }

  /** The name under which a screen is entered. */
  function StateName(s: Screen): string
    requires s != Loading
  {
    match s
    case Mulligan => "mulligan"
    case MulliganAnim => "mulligan_anim"
    case TurnW => "turn_w"
    case TurnB => "turn_b"
  }

  /** The table is one-to-one: each screen but `Loading` has exactly one
      name, and exactly those four names are understood. */
  lemma ParseStateNames(name: string, s: Screen)
    requires s != Loading
    ensures ParseState(StateName(s)) == Some(s)
    ensures ParseState(name) == Some(s) <==> name == StateName(s)
    ensures ParseState(name) != Some(Loading)
  {
  }

  /** The parts of the mulligan animation: the discarded cards flip down,
      their replacements flip up, the new hand holds still, the hand flies
      down to its place, and then white's turn begins. */
  datatype MulliganPhase = FlipDown | FlipUp | Hold | Fly | Finished

  /** The part of the animation shown `t` milliseconds after it started. */
  function AnimPhase(t: int): (p: MulliganPhase)
    ensures p == Finished <==> t >= 4000
    ensures p != Finished && t >= 0 ==> 1000 * PhaseRank(p) <= t < 1000 * PhaseRank(p) + 1000
    ensures t < 0 ==> p == FlipDown
  {
    if t >= 4000 then Finished
    else if t < 1000 then FlipDown
    else if t < 2000 then FlipUp
    else if t < 3000 then Hold
    else Fly
  }

  /** The position of a phase in the animation. */
  function PhaseRank(p: MulliganPhase): nat
  {
    match p
    case FlipDown => 0
    case FlipUp => 1
    case Hold => 2
    case Fly => 3
    case Finished => 4
  }

  /** Each phase lasts exactly one second: from the start, the phase is the
      number of whole seconds elapsed, until the fourth second ends it. */
  lemma AnimPhaseBySeconds(t: int)
    ensures PhaseRank(AnimPhase(t)) == if t < 0 then 0 else if t / 1000 > 4 then 4 else t / 1000
  {
    if 0 <= t < 4000 {
      assert t / 1000 == PhaseRank(AnimPhase(t)) by {
        var q := PhaseRank(AnimPhase(t));
        assert q * 1000 <= t < q * 1000 + 1000;
      }
    } else if t >= 4000 {
      assert t / 1000 >= 4;
    }
  }

  /** The phases follow one another: time moving on never goes back to an
      earlier phase. */
  lemma AnimPhaseMonotone(t1: int, t2: int)
    requires t1 <= t2
    ensures PhaseRank(AnimPhase(t1)) <= PhaseRank(AnimPhase(t2))
  {
  }
}
