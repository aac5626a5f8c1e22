/**
  The laser visuals of the older laser mode: each laser has an idle turret
  model, a charging turret model and a ray, and the mode decides which of
  them are drawn.
*/
module LaserVisuals {
  import Modes
  import opened LegacyPhases

  /** The engine's visibility component. */
  class Visibility {
    var isVisible: bool
  }

  /** The visuals component: the three child models of a laser. */
  datatype Visuals = Visuals(normal: Visibility, charging: Visibility, ray: Visibility)

  /** A laser as the visual systems see it: its current mode and its visuals. */
  datatype Viewed = Viewed(mode: Mode, visuals: Visuals)

  /** The idle turret is drawn unless the laser is charging or shooting. */
  predicate NormalVisible(m: Mode)
  {
    !(m == Charging || m == Shooting)
  }

  /** The charging turret is drawn while the laser is charging or shooting. */
  predicate ChargingVisible(m: Mode)
  {
    m == Charging || m == Shooting
  }

  /** The ray is drawn while the laser is shooting. */
  predicate RayVisible(m: Mode)
  {
    m == Shooting
  }

  /** Exactly one turret is drawn, the ray only over the charging turret, and the charging turret exactly while the laser fires. */
  lemma TurretRules(m: Mode)
    ensures NormalVisible(m) != ChargingVisible(m)
    ensures RayVisible(m) ==> ChargingVisible(m)
    ensures ChargingVisible(m) <==> Modes.Firing(Rename(m))
    ensures NormalVisible(m) <==> m == Ready
  {
  }

  /** No two laser models share a visibility component. */
  ghost predicate Separate(ls: seq<Viewed>)
  {
    && (forall i :: 0 <= i < |ls| ==>
         && ls[i].visuals.normal != ls[i].visuals.charging
         && ls[i].visuals.normal != ls[i].visuals.ray
         && ls[i].visuals.charging != ls[i].visuals.ray)
    && (forall i, j :: 0 <= i < j < |ls| ==>
         {ls[i].visuals.normal, ls[i].visuals.charging, ls[i].visuals.ray} !!
         {ls[j].visuals.normal, ls[j].visuals.charging, ls[j].visuals.ray})
  }

  ghost function Turrets(ls: seq<Viewed>): set<Visibility>
  {
    (set l | l in ls :: l.visuals.normal) + (set l | l in ls :: l.visuals.charging)
  }

  ghost function Rays(ls: seq<Viewed>): set<Visibility>
  {
    set l | l in ls :: l.visuals.ray
  }

  /** The charge system: show the turret model that matches each laser's mode. */
  method Charge(ls: seq<Viewed>)
    requires Separate(ls)
    modifies Turrets(ls)
    ensures forall i :: 0 <= i < |ls| ==>
      && ls[i].visuals.normal.isVisible == NormalVisible(ls[i].mode)
      && ls[i].visuals.charging.isVisible == ChargingVisible(ls[i].mode)
      && ls[i].visuals.ray.isVisible == old(ls[i].visuals.ray.isVisible)
  {
    for k := 0 to |ls|
      invariant forall i :: 0 <= i < k ==>
        && ls[i].visuals.normal.isVisible == NormalVisible(ls[i].mode)
        && ls[i].visuals.charging.isVisible == ChargingVisible(ls[i].mode)
      invariant forall i :: 0 <= i < |ls| ==> ls[i].visuals.ray.isVisible == old(ls[i].visuals.ray.isVisible)
    {
      var v := ls[k].visuals;
      v.normal.isVisible := !(ls[k].mode == Charging || ls[k].mode == Shooting);
      v.charging.isVisible := ls[k].mode == Charging || ls[k].mode == Shooting;
    }
  }

  /** The attack system: show the ray of each shooting laser and hide the others. */
  method Attack(ls: seq<Viewed>)
    requires Separate(ls)
    modifies Rays(ls)
    ensures forall i :: 0 <= i < |ls| ==>
      && ls[i].visuals.ray.isVisible == RayVisible(ls[i].mode)
      && ls[i].visuals.normal.isVisible == old(ls[i].visuals.normal.isVisible)
      && ls[i].visuals.charging.isVisible == old(ls[i].visuals.charging.isVisible)
  {
    for k := 0 to |ls|
      invariant forall i :: 0 <= i < k ==> ls[i].visuals.ray.isVisible == RayVisible(ls[i].mode)
      invariant forall i :: 0 <= i < |ls| ==>
        && ls[i].visuals.normal.isVisible == old(ls[i].visuals.normal.isVisible)
        && ls[i].visuals.charging.isVisible == old(ls[i].visuals.charging.isVisible)
    {
      ls[k].visuals.ray.isVisible := ls[k].mode == Shooting;
    }
  }
}
