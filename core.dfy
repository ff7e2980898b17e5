/** The kappa-ray core (kapparay.Core): a single live instance and a per-vessel tracker cache. */
module KappaCore {
  import opened Common

  /** A vessel, compared by reference as the dictionary compares it. */
  class Vessel {
    constructor ()
    {
    }
  }

  /** `RadiationTracker`: only its vessel is modelled. */
  class RadiationTracker {
    var vessel: Vessel

    constructor (v: Vessel)
      ensures vessel == v
    {
      vessel := v;
    }
  }

  /** The static `Core.Instance` slot. */
  class Registry {
    var instance: Core?

    constructor ()
      ensures instance == null
    {
      instance := null;
    }
  }

  class Core {
    /** `mVessels`; `None` until `Start` creates the dictionary. */
    var vessels: Option<map<Vessel, RadiationTracker>>
    /**
     * False once Unity has destroyed the object; a destroyed object then
     * compares equal to `null` under Unity's overloaded `==`.
     */
    var alive: bool

    constructor ()
      ensures vessels == None && alive
    {
      vessels := None;
      alive := true;
    }

    /** `Object.Destroy`, as the engine does to a scene's objects when the scene is left. */
    method Destroy()
      modifies this`alive
      ensures !alive
    {
      alive := false;
    }

    /**
     * Becomes the instance with an empty cache, unless another core already
     * is and is still alive; then it leaves that one alone and destroys itself.
     * A destroyed instance left in the slot counts as `null`.
     */
    method Start(registry: Registry) returns (destroyed: bool)
      modifies registry, this`vessels, this`alive
      ensures destroyed <==> old(registry.instance) != null && old(registry.instance.alive)
      ensures destroyed ==> registry.instance == old(registry.instance) && vessels == old(vessels) && !alive
      ensures !destroyed ==> registry.instance == this && vessels == Some(map[]) && alive == old(alive)
    {
      if registry.instance != null && registry.instance.alive {
        alive := false;
        return true;
      }
      registry.instance := this;
      vessels := Some(map[]);
      return false;
    }

    /** The tracker for `v`, created and cached on first use. */
    method GetRT(v: Vessel) returns (rt: RadiationTracker)
      requires vessels.Some?
      modifies this`vessels
      ensures vessels.Some? && v in vessels.value && vessels.value[v] == rt
      ensures v in old(vessels.value) ==> vessels == old(vessels) && rt == old(vessels.value[v])
      ensures v !in old(vessels.value) ==>
        fresh(rt) && rt.vessel == v && vessels.value == old(vessels.value)[v := rt]
      ensures forall w :: w in old(vessels.value) ==> w in vessels.value && vessels.value[w] == old(vessels.value[w])
      ensures vessels.value.Keys == old(vessels.value).Keys + {v}
      ensures |vessels.value| <= |old(vessels.value)| + 1
    {
      var cache: map<Vessel, RadiationTracker> := vessels.value;
      if v !in cache {
        var created := new RadiationTracker(v);
        AddKeyGrowsByOne(cache, v, created);
        cache := cache[v := created];
        vessels := Some(cache);
      }
      rt := cache[v];
    }
  }

  /** Adding one key grows a map by at most one entry. */
  lemma AddKeyGrowsByOne<K, V>(m: map<K, V>, k: K, x: V)
    ensures |m[k := x]| <= |m| + 1
    ensures k in m ==> |m[k := x]| == |m|
  {
  }

  /**
   * Leaving a scene destroys its core; the core the next scene starts then
   * takes over the slot with an empty cache.
   */
  method NextScene(registry: Registry, previous: Core) returns (next: Core)
    requires registry.instance == previous
    modifies previous`alive, registry
    ensures fresh(next) && next.alive
    ensures registry.instance == next && next.vessels == Some(map[])
  {
    previous.Destroy();
    next := new Core();
    var destroyed := next.Start(registry);
    assert !destroyed;
  }

  /** Asking twice for the same vessel returns the same tracker. */
  method GetRTTwice(core: Core, v: Vessel) returns (first: RadiationTracker, second: RadiationTracker)
    requires core.vessels.Some?
    modifies core
    ensures first == second
    ensures v in old(core.vessels.value) ==> first == old(core.vessels.value[v])
    ensures v !in old(core.vessels.value) ==> first.vessel == v
  {
    first := core.GetRT(v);
    second := core.GetRT(v);
  }
}
