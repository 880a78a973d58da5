/**
 * `ChurnViz` (src/components/ProjectAnimations.jsx): users enter on the left, move right, may
 * churn once past 60% of the width and then drift down, and are removed once off the canvas.
 * Removal is a `splice` inside the `forEach` that advances them. Random draws are inputs.
 */
module ChurnViz {

  /** One user dot; its colour is red exactly when `churned`. */
  datatype User = User(x: real, y: real, speed: real, churned: bool)

  /** `spawnUser`: a new user at the left edge, not churned, with the given random draws. */
  function Spawn(height: nat, yRoll: real, speedRoll: real): (u: User)
    ensures u.x == 0.0 && !u.churned
    ensures 0.0 <= yRoll < 1.0 && height >= 40 ==> 20.0 <= u.y <= height as real - 20.0
    ensures 0.0 <= speedRoll < 1.0 ==> 1.0 <= u.speed < 3.0
  {
    var span := height as real - 40.0;
    assert 0.0 <= yRoll < 1.0 && span >= 0.0 ==> 0.0 <= yRoll * span <= span by {
      if 0.0 <= yRoll < 1.0 && span >= 0.0 {
        Scaled(yRoll, span);
      }
    }
    User(0.0, yRoll * span + 20.0, speedRoll * 2.0 + 1.0, false)
  }

  /** A fraction in [0, 1) of a non-negative span lies within the span. */
  lemma Scaled(r: real, span: real)
    requires 0.0 <= r < 1.0 && span >= 0.0
    ensures 0.0 <= r * span <= span
  {
    assert span - r * span == (1.0 - r) * span;
    assert (1.0 - r) * span >= 0.0;
  }

  /** The churn point: 60% of the canvas width. */
  function Threshold(width: nat): real {
    width as real * 0.6
  }

  /** The body of the `forEach` callback before the removal test; `roll` is its `Math.random()` draw. */
  function Advance(u: User, threshold: real, roll: real): (v: User)
    ensures v.x == u.x + u.speed && v.speed == u.speed
    ensures u.churned ==> v.churned
    ensures v.churned && !u.churned ==> v.x > threshold && roll > 0.7
    ensures !u.churned && v.x > threshold && roll > 0.7 ==> v.churned
    ensures v.y == u.y + (if v.churned then 1.0 else 0.0)
  {
    var x := u.x + u.speed;
    var churned := u.churned || (x > threshold && roll > 0.7);
    User(x, if churned then u.y + 1.0 else u.y, u.speed, churned)
  }

  predicate Offscreen(u: User, width: nat, height: nat) {
    u.x > width as real || u.y > height as real
  }

  /**
   * The `forEach` pass as the list sees it, with the users from callback index `k` on. A user
   * that leaves the canvas is spliced out; the next user slides into its index, which the
   * iteration has already passed, so it is kept unadvanced this frame.
   */
  function Pass(us: seq<User>, k: nat, width: nat, height: nat, rolls: nat -> real): (r: seq<User>)
    ensures |r| <= |us|
    decreases |us|
  {
    if us == [] then []
    else
      var v := Advance(us[0], Threshold(width), rolls(k));
      if Offscreen(v, width, height) then
        (if |us| == 1 then [] else [us[1]] + Pass(us[2..], k + 1, width, height, rolls))
      else [v] + Pass(us[1..], k + 1, width, height, rolls)
  }

  /** The reference behaviour: every user advanced once, then the off-canvas ones dropped. */
  function AdvanceAll(us: seq<User>, k: nat, width: nat, height: nat, rolls: nat -> real): (r: seq<User>)
    ensures |r| <= |us|
    decreases |us|
  {
    if us == [] then []
    else
      var v := Advance(us[0], Threshold(width), rolls(k));
      (if Offscreen(v, width, height) then [] else [v]) + AdvanceAll(us[1..], k + 1, width, height, rolls)
  }

  /** No user leaves the canvas this frame. */
  predicate NoneLeaves(us: seq<User>, k: nat, width: nat, height: nat, rolls: nat -> real) {
    forall i | 0 <= i < |us| :: !Offscreen(Advance(us[i], Threshold(width), rolls(k + i)), width, height)
  }

  /** When nobody leaves, the pass advances every user by exactly its speed, in order. */
  lemma {:induction false} PassWithoutRemoval(us: seq<User>, k: nat, width: nat, height: nat, rolls: nat -> real)
    requires NoneLeaves(us, k, width, height, rolls)
    ensures Pass(us, k, width, height, rolls) == AdvanceAll(us, k, width, height, rolls)
    ensures |Pass(us, k, width, height, rolls)| == |us|
    ensures forall i | 0 <= i < |us| ::
      Pass(us, k, width, height, rolls)[i] == Advance(us[i], Threshold(width), rolls(k + i))
    decreases |us|
  {
    if us != [] {
      assert NoneLeaves(us[1..], k + 1, width, height, rolls) by {
        forall i | 0 <= i < |us| - 1
          ensures !Offscreen(Advance(us[1..][i], Threshold(width), rolls(k + 1 + i)), width, height)
        {
          assert us[1..][i] == us[i + 1];
        }
      }
      PassWithoutRemoval(us[1..], k + 1, width, height, rolls);
      assert !Offscreen(Advance(us[0], Threshold(width), rolls(k)), width, height);
    }
  }

  /** The user right behind a removed one is not advanced in that frame, unlike in the reference behaviour. */
  lemma FollowerOfRemovedIsSkipped(a: User, b: User, k: nat, width: nat, height: nat, rolls: nat -> real)
    requires Offscreen(Advance(a, Threshold(width), rolls(k)), width, height)
    requires !Offscreen(Advance(b, Threshold(width), rolls(k + 1)), width, height)
    requires b.speed != 0.0
    ensures Pass([a, b], k, width, height, rolls) == [b]
    ensures AdvanceAll([a, b], k, width, height, rolls) == [Advance(b, Threshold(width), rolls(k + 1))]
    ensures Pass([a, b], k, width, height, rolls) != AdvanceAll([a, b], k, width, height, rolls)
  {
    assert [a, b][1..] == [b];
    assert [a, b][2..] == [];
    assert [b][1..] == [];
  }

  /**
   * The first user to leave, at index `i`, takes its follower's place: the users before `i`
   * are advanced, the follower at `i + 1` is kept unadvanced, and the pass resumes at `i + 2`.
   */
  lemma {:induction false} FirstRemovalSkipsFollower(us: seq<User>, k: nat, width: nat, height: nat, rolls: nat -> real, i: nat)
    requires i + 1 < |us| && NoneLeaves(us[..i], k, width, height, rolls)
    requires Offscreen(Advance(us[i], Threshold(width), rolls(k + i)), width, height)
    ensures Pass(us, k, width, height, rolls)
      == AdvanceAll(us[..i], k, width, height, rolls) + [us[i + 1]] + Pass(us[i + 2..], k + i + 1, width, height, rolls)
    decreases i
  {
    if i == 0 {
      assert us[..0] == [];
    } else {
      var tail := us[1..];
      assert us[..i][0] == us[0] && us[..i][1..] == tail[..i - 1];
      assert tail[i - 1] == us[i] && tail[i] == us[i + 1] && tail[i + 1..] == us[i + 2..];
      assert NoneLeaves(tail[..i - 1], k + 1, width, height, rolls) by {
        forall j | 0 <= j < i - 1
          ensures !Offscreen(Advance(tail[j], Threshold(width), rolls(k + 1 + j)), width, height)
        {
          assert tail[j] == us[..i][j + 1];
        }
      }
      assert !Offscreen(Advance(us[..i][0], Threshold(width), rolls(k + 0)), width, height);
      FirstRemovalSkipsFollower(tail, k + 1, width, height, rolls, i - 1);
    }
  }

  /** `v` is the input user at some index, either unchanged or advanced with some draw. */
  ghost predicate FromInput(v: User, us: seq<User>, width: nat) {
    exists i | 0 <= i < |us| :: v == us[i] || exists roll: real :: v == Advance(us[i], Threshold(width), roll)
  }

  lemma FromSuffix(v: User, us: seq<User>, m: nat, width: nat)
    requires m <= |us| && FromInput(v, us[m..], width)
    ensures FromInput(v, us, width)
  {
    var i :| 0 <= i < |us[m..]| && (v == us[m..][i] || exists roll: real :: v == Advance(us[m..][i], Threshold(width), roll));
    assert us[m..][i] == us[m + i];
  }

  /** Every user the pass keeps is an input user, advanced or (right behind a removed one) unchanged. */
  lemma {:induction false} PassKeepsInputs(us: seq<User>, k: nat, width: nat, height: nat, rolls: nat -> real)
    ensures forall v | v in Pass(us, k, width, height, rolls) :: FromInput(v, us, width)
    decreases |us|
  {
    if us != [] {
      var v0 := Advance(us[0], Threshold(width), rolls(k));
      var r := Pass(us, k, width, height, rolls);
      if Offscreen(v0, width, height) {
        if |us| > 1 {
          PassKeepsInputs(us[2..], k + 1, width, height, rolls);
          assert r == [us[1]] + Pass(us[2..], k + 1, width, height, rolls);
          forall v | v in r ensures FromInput(v, us, width) {
            if v != us[1] {
              assert v in Pass(us[2..], k + 1, width, height, rolls);
              FromSuffix(v, us, 2, width);
            }
          }
        }
      } else {
        PassKeepsInputs(us[1..], k + 1, width, height, rolls);
        assert r == [v0] + Pass(us[1..], k + 1, width, height, rolls);
        forall v | v in r ensures FromInput(v, us, width) {
          if v != v0 {
            assert v in Pass(us[1..], k + 1, width, height, rolls);
            FromSuffix(v, us, 1, width);
          }
        }
      }
    }
  }

  /** One mounted `ChurnViz`. */
  class Scene {
    var width: nat
    var height: nat
    var users: seq<User>

    constructor (width: nat, height: nat)
      ensures this.width == width && this.height == height && users == []
    {
      this.width := width;
      this.height := height;
      users := [];
    }

    /** `init`, also the resize handler: only the canvas size changes. */
    method Resize(w: nat, h: nat)
      modifies this
      ensures width == w && height == h && users == old(users)
    {
      width := w;
      height := h;
    }

    /**
     * One frame: spawn a user when `spawnRoll > 0.95`, then the `forEach` over the list, which
     * visits the indices below the length it had when it began and skips those no longer present.
     */
    method Frame(spawnRoll: real, yRoll: real, speedRoll: real, rolls: nat -> real)
      modifies this
      ensures width == old(width) && height == old(height)
      ensures var spawned := if spawnRoll > 0.95 then old(users) + [Spawn(height, yRoll, speedRoll)] else old(users);
        users == Pass(spawned, 0, width, height, rolls)
    {
      if spawnRoll > 0.95 {
        users := users + [Spawn(height, yRoll, speedRoll)];
      }
      var w, h := width, height;
      var us := users;
      ghost var spawned := us;
      var threshold := Threshold(w);
      var n := |us|;
      var k := 0;
      assert us[..0] + us[0..] == us;
      while k < n
        invariant 0 <= k <= n && |us| <= n
        invariant Midway(spawned, us, k, w, h, rolls)
        invariant width == w && height == h
        decreases n - k
      {
        if k < |us| {
          var u := Advance(us[k], threshold, rolls(k));
          if u.x > w as real || u.y > h as real {
            RemoveStep(spawned, us, k, w, h, rolls);
            us := us[..k] + us[k + 1..];
          } else {
            KeepStep(spawned, us, k, w, h, rolls);
            us := us[..k] + [u] + us[k + 1..];
          }
        } else {
          SkipStep(spawned, us, k, w, h, rolls);
        }
        k := k + 1;
      }
      SkipStep(spawned, us, k, w, h, rolls);
      users := us;
    }
  }

  /**
   * The state of the `forEach` before callback index `k`: the users before `k` are final, and
   * the pass of the rest completes the frame; past the end of the list, the list is final.
   */
  predicate Midway(spawned: seq<User>, us: seq<User>, k: nat, width: nat, height: nat, rolls: nat -> real) {
    if k <= |us| then Pass(spawned, 0, width, height, rolls) == us[..k] + Pass(us[k..], k, width, height, rolls)
    else Pass(spawned, 0, width, height, rolls) == us
  }

  /** Splicing out the user at `k` keeps the loop state. */
  lemma RemoveStep(spawned: seq<User>, us: seq<User>, k: nat, width: nat, height: nat, rolls: nat -> real)
    requires k < |us| && Midway(spawned, us, k, width, height, rolls)
    requires Offscreen(Advance(us[k], Threshold(width), rolls(k)), width, height)
    ensures Midway(spawned, us[..k] + us[k + 1..], k + 1, width, height, rolls)
  {
    var rest := us[k..];
    var next := us[..k] + us[k + 1..];
    assert rest[0] == us[k];
    if |rest| > 1 {
      assert rest[1] == us[k + 1] && rest[2..] == us[k + 2..];
      assert next[..k + 1] == us[..k] + [us[k + 1]];
      assert next[k + 1..] == us[k + 2..];
    } else {
      assert next == us[..k];
    }
  }

  /** Writing back the advanced user at `k` keeps the loop state. */
  lemma KeepStep(spawned: seq<User>, us: seq<User>, k: nat, width: nat, height: nat, rolls: nat -> real)
    requires k < |us| && Midway(spawned, us, k, width, height, rolls)
    requires !Offscreen(Advance(us[k], Threshold(width), rolls(k)), width, height)
    ensures Midway(spawned, us[..k] + [Advance(us[k], Threshold(width), rolls(k))] + us[k + 1..], k + 1, width, height, rolls)
  {
    var u := Advance(us[k], Threshold(width), rolls(k));
    var rest := us[k..];
    var next := us[..k] + [u] + us[k + 1..];
    assert rest[0] == us[k];
    assert rest[1..] == us[k + 1..];
    assert next[..k + 1] == us[..k] + [u];
    assert next[k + 1..] == us[k + 1..];
  }

  /** An index no longer present is skipped; at or past the end of the list, the list is the result. */
  lemma SkipStep(spawned: seq<User>, us: seq<User>, k: nat, width: nat, height: nat, rolls: nat -> real)
    requires |us| <= k && Midway(spawned, us, k, width, height, rolls)
    ensures Midway(spawned, us, k + 1, width, height, rolls)
    ensures Pass(spawned, 0, width, height, rolls) == us
  {
    if k == |us| {
      assert us[k..] == [];
      assert us[..k] == us;
    }
  }
}
