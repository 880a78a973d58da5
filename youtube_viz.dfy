/**
 * `YoutubeViz` (src/components/ProjectAnimations.jsx): a view counter that starts at 1500 and
 * adds `Math.floor(Math.random() * 50)` views every frame. The random draws are inputs.
 */
module YoutubeViz {

  const InitialViews: int := 1500

  /** A draw `Math.random()` can produce. */
  predicate ValidRoll(roll: real) {
    0.0 <= roll < 1.0
  }

  /** The views one frame adds: between 0 and 49 for every valid draw. */
  function Increment(roll: real): (n: int)
    ensures ValidRoll(roll) ==> 0 <= n <= 49
    ensures n as real <= roll * 50.0 < n as real + 1.0
  {
    (roll * 50.0).Floor
  }

  /** The counter after one frame per draw. */
  function Views(start: int, rolls: seq<real>): int
    decreases |rolls|
  {
    if rolls == [] then start else Views(start + Increment(rolls[0]), rolls[1..])
  }

  /** The counter never goes down, and gains at most 49 views per frame. */
  lemma {:induction false} ViewsBounds(start: int, rolls: seq<real>)
    requires forall i | 0 <= i < |rolls| :: ValidRoll(rolls[i])
    ensures start <= Views(start, rolls) <= start + 49 * |rolls|
    decreases |rolls|
  {
    if rolls != [] {
      assert ValidRoll(rolls[0]);
      ViewsBounds(start + Increment(rolls[0]), rolls[1..]);
    }
  }

  /** Draws below 0.02 add nothing: a run of them leaves the counter where it was. */
  lemma {:induction false} SmallRollsKeepViews(start: int, rolls: seq<real>)
    requires forall i | 0 <= i < |rolls| :: 0.0 <= rolls[i] < 0.02
    ensures Views(start, rolls) == start
    decreases |rolls|
  {
    if rolls != [] {
      assert Increment(rolls[0]) == 0;
      SmallRollsKeepViews(start, rolls[1..]);
    }
  }

  /** One mounted `YoutubeViz`. */
  class Scene {
    var views: int

    constructor ()
      ensures views == InitialViews
    {
      views := 1500;
    }

    /** One frame with the draw `roll`. */
    method Frame(roll: real)
      modifies this
      ensures views == Views(old(views), [roll])
    {
      views := views + (roll * 50.0).Floor;
    }
  }
}
