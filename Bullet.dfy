/**
 * The shell's explosion: every collider caught by the blast that has a rigid
 * body is pushed away, and every such body that also carries tank health
 * takes damage that falls off linearly from the centre to the blast radius.
 * Distances are reals; the vector geometry that yields them is left to the
 * physics engine.
 */
module Bullet {
  import opened Wrappers

  /** Mathf.Max on two values: the first when it is strictly larger, else the second. */
  function Max(a: real, b: real): (m: real)
    ensures m >= a && m >= b && (m == a || m == b)
  {
    if a > b then a else b
  }

  /**
   * Damage to a body at `distance` from the centre of an explosion with the
   * given radius and maximum damage: the relative distance from the rim,
   * times the maximum damage, never below zero.
   */
  function CalculateDamage(maxDamage: real, radius: real, distance: real): (damage: real)
    requires radius != 0.0
    ensures damage >= 0.0
  {
    var relativeDistance := (radius - distance) / radius;
    var raw := relativeDistance * maxDamage;
    Max(0.0, raw)
  }

  /** A body at the centre takes the full damage. */
  lemma DamageAtCentre(maxDamage: real, radius: real)
    requires radius > 0.0 && maxDamage >= 0.0
    ensures CalculateDamage(maxDamage, radius, 0.0) == maxDamage
  {
    assert (radius - 0.0) / radius == 1.0;
  }

  /** A body at or beyond the radius takes no damage. */
  lemma NoDamageOutside(maxDamage: real, radius: real, distance: real)
    requires radius > 0.0 && maxDamage >= 0.0 && distance >= radius
    ensures CalculateDamage(maxDamage, radius, distance) == 0.0
  {
    assert (radius - distance) / radius <= 0.0;
    assert (radius - distance) / radius * maxDamage <= 0.0 by {
      MulNonPositive((radius - distance) / radius, maxDamage);
    }
  }

  /** Inside the blast the damage is exactly the linear falloff. */
  lemma LinearInside(maxDamage: real, radius: real, distance: real)
    requires radius > 0.0 && maxDamage >= 0.0 && 0.0 <= distance <= radius
    ensures CalculateDamage(maxDamage, radius, distance) == maxDamage * (radius - distance) / radius
  {
    var rel := (radius - distance) / radius;
    assert rel >= 0.0;
    assert rel * maxDamage >= 0.0;
    assert rel * maxDamage == maxDamage * (radius - distance) / radius;
  }

  /** The farther the body, the less (or equal) damage it takes. */
  lemma DamageNonIncreasing(maxDamage: real, radius: real, near: real, far: real)
    requires radius > 0.0 && maxDamage >= 0.0 && near <= far
    ensures CalculateDamage(maxDamage, radius, far) <= CalculateDamage(maxDamage, radius, near)
  {
    var relNear, relFar := (radius - near) / radius, (radius - far) / radius;
    assert relFar <= relNear by {
      assert relNear - relFar == (far - near) / radius;
    }
    assert relFar * maxDamage <= relNear * maxDamage by {
      MulNonNegative(relNear - relFar, maxDamage);
    }
  }

  /** No body takes more than the maximum damage. */
  lemma DamageAtMostMax(maxDamage: real, radius: real, distance: real)
    requires radius > 0.0 && maxDamage >= 0.0 && distance >= 0.0
    ensures CalculateDamage(maxDamage, radius, distance) <= maxDamage
  {
    DamageNonIncreasing(maxDamage, radius, 0.0, distance);
    DamageAtCentre(maxDamage, radius);
  }

  /** Radius 5, maximum damage 100, a body 2.5 away takes 50. */
  lemma HalfwayExample()
    ensures CalculateDamage(100.0, 5.0, 2.5) == 50.0
  {
  }

  lemma MulNonNegative(a: real, b: real)
    requires a >= 0.0 && b >= 0.0
    ensures a * b >= 0.0
  {
  }

  lemma MulNonPositive(a: real, b: real)
    requires a <= 0.0 && b >= 0.0
    ensures a * b <= 0.0
  {
  }

  /** A rigid body caught by the blast: its distance from the centre and whether it carries tank health. */
  datatype Body = Body(distance: real, hasHealth: bool)

  /** A collider caught by the blast, with the rigid body attached to it, if any. */
  datatype Collider = Collider(rigidbody: Option<Body>)

  /** The shell's tuning: explosion force, maximum damage and explosion radius. */
  datatype Shell = Shell(explosionForce: real, maxDamage: real, explosionRadius: real)

  /**
   * What the blast does to collider `target`: an explosion force of the
   * given magnitude, or a TakeDamage call with the given amount.
   */
  datatype Effect = Push(target: nat, force: real) | Hurt(target: nat, amount: real)

  /** The effects on collider i, in the order the blast applies them. */
  function TargetEffects(shell: Shell, i: nat, c: Collider): seq<Effect>
    requires shell.explosionRadius != 0.0
  {
    match c.rigidbody
    case None => []
    case Some(body) =>
      [Push(i, shell.explosionForce)] +
      (if body.hasHealth then [Hurt(i, CalculateDamage(shell.maxDamage, shell.explosionRadius, body.distance))] else [])
  }

  /** The effects on all colliders, collider by collider in order. */
  function Effects(shell: Shell, cs: seq<Collider>): seq<Effect>
    requires shell.explosionRadius != 0.0
  {
    if cs == [] then [] else Effects(shell, cs[..|cs| - 1]) + TargetEffects(shell, |cs| - 1, cs[|cs| - 1])
  }

  /** Number of TakeDamage calls on collider i in a run of effects. */
  function HurtCount(log: seq<Effect>, i: nat): nat {
    if log == [] then 0
    else HurtCount(log[..|log| - 1], i) + (if log[|log| - 1].Hurt? && log[|log| - 1].target == i then 1 else 0)
  }

  /** Number of explosion forces on collider i in a run of effects. */
  function PushCount(log: seq<Effect>, i: nat): nat {
    if log == [] then 0
    else PushCount(log[..|log| - 1], i) + (if log[|log| - 1].Push? && log[|log| - 1].target == i then 1 else 0)
  }

  lemma {:induction false} CountsAppend(a: seq<Effect>, b: seq<Effect>, i: nat)
    ensures HurtCount(a + b, i) == HurtCount(a, i) + HurtCount(b, i)
    ensures PushCount(a + b, i) == PushCount(a, i) + PushCount(b, i)
    decreases |b|
  {
    if b == [] {
      assert a + b == a;
    } else {
      assert (a + b)[..|a + b| - 1] == a + b[..|b| - 1];
      CountsAppend(a, b[..|b| - 1], i);
    }
  }

  /** Every effect of the blast names a collider that was caught. */
  lemma {:induction false} EffectsTargetCaught(shell: Shell, cs: seq<Collider>)
    requires shell.explosionRadius != 0.0
    ensures forall e :: e in Effects(shell, cs) ==> e.target < |cs|
  {
    if cs != [] {
      EffectsTargetCaught(shell, cs[..|cs| - 1]);
    }
  }

  /**
   * In one blast, a collider without a rigid body gets neither force nor
   * damage; a collider whose body has no tank health gets one push and no
   * damage; and a collider whose body has tank health gets one push and
   * exactly one TakeDamage call. Counts are per collider.
   */
  lemma {:induction false} EffectsPerTarget(shell: Shell, cs: seq<Collider>, i: nat)
    requires shell.explosionRadius != 0.0
    requires i < |cs|
    ensures PushCount(Effects(shell, cs), i) == if cs[i].rigidbody.Some? then 1 else 0
    ensures HurtCount(Effects(shell, cs), i) ==
            if cs[i].rigidbody.Some? && cs[i].rigidbody.value.hasHealth then 1 else 0
  {
    var n := |cs| - 1;
    var front := cs[..n];
    CountsAppend(Effects(shell, front), TargetEffects(shell, n, cs[n]), i);
    TargetCounts(shell, n, cs[n], i);
    if i == n {
      NoneBefore(shell, front, i);
    } else {
      EffectsPerTarget(shell, front, i);
      assert front[i] == cs[i];
    }
  }

  /** The effects on the first colliders never name a later one. */
  lemma {:induction false} NoneBefore(shell: Shell, cs: seq<Collider>, i: nat)
    requires shell.explosionRadius != 0.0
    requires i >= |cs|
    ensures HurtCount(Effects(shell, cs), i) == 0 && PushCount(Effects(shell, cs), i) == 0
  {
    if cs != [] {
      var n := |cs| - 1;
      CountsAppend(Effects(shell, cs[..n]), TargetEffects(shell, n, cs[n]), i);
      NoneBefore(shell, cs[..n], i);
      TargetCounts(shell, n, cs[n], i);
    }
  }

  /** The effects on collider n: one push if it has a body, one damage if that body has health. */
  lemma TargetCounts(shell: Shell, n: nat, c: Collider, i: nat)
    requires shell.explosionRadius != 0.0
    ensures PushCount(TargetEffects(shell, n, c), i) == if i == n && c.rigidbody.Some? then 1 else 0
    ensures HurtCount(TargetEffects(shell, n, c), i) ==
            if i == n && c.rigidbody.Some? && c.rigidbody.value.hasHealth then 1 else 0
  {
    var t := TargetEffects(shell, n, c);
    if c.rigidbody.Some? {
      var push := [Push(n, shell.explosionForce)];
      assert push[..0] == [];
      assert PushCount(push, i) == (if i == n then 1 else 0) && HurtCount(push, i) == 0;
      if c.rigidbody.value.hasHealth {
        assert t[..1] == push;
      } else {
        assert t == push;
      }
    }
  }

  /** Every TakeDamage call carries the falloff damage for that body's distance. */
  lemma {:induction false} HurtAmounts(shell: Shell, cs: seq<Collider>)
    requires shell.explosionRadius != 0.0
    ensures forall e :: e in Effects(shell, cs) && e.Hurt? ==>
              e.target < |cs| && cs[e.target].rigidbody.Some? && cs[e.target].rigidbody.value.hasHealth &&
              e.amount == CalculateDamage(shell.maxDamage, shell.explosionRadius, cs[e.target].rigidbody.value.distance)
  {
    if cs != [] {
      HurtAmounts(shell, cs[..|cs| - 1]);
    }
  }

  /**
   * The blast of OnTriggerEnter: for each collider in turn, skip it if it
   * has no rigid body; push it; skip it if it has no tank health; damage it.
   */
  method OnTriggerEnter(shell: Shell, colliders: seq<Collider>) returns (log: seq<Effect>)
    requires shell.explosionRadius != 0.0
    ensures log == Effects(shell, colliders)
  {
    log := [];
    for i := 0 to |colliders|
      invariant log == Effects(shell, colliders[..i])
    {
      assert colliders[..i + 1][..i] == colliders[..i];
      var targetRigidbody := colliders[i].rigidbody;
      if targetRigidbody.None? {
        continue;
      }
      log := log + [Push(i, shell.explosionForce)];
      var body := targetRigidbody.value;
      if !body.hasHealth {
        continue;
      }
      var damage := CalculateDamage(shell.maxDamage, shell.explosionRadius, body.distance);
      log := log + [Hurt(i, damage)];
    }
    assert colliders[..|colliders|] == colliders;
  }
}
