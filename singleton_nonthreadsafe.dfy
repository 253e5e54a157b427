/**
 * Singleton, non-thread-safe variant
 * (src/Singleton/Conceptual/NonThreadSafe/main.py).
 *
 * `SingletonMeta.__call__` intercepts every `Singleton(...)` call: it
 * constructs and records an instance only when the class has none in the
 * metaclass's `_instances` dictionary, and always returns the recorded one.
 */
module SingletonNonThreadSafe {
  import opened Wrappers
  import Registry

  /** A class using the metaclass, identified by its name. */
  type ClassKey = string

  /**
   * `Singleton` defines no `__init__`, so constructing it with any argument
   * raises this `TypeError`.
   */
  datatype Error = TypeError

  /** An instance of a class using the metaclass; objects compare by identity. */
  class Singleton {
    const cls: ClassKey

    constructor (cls: ClassKey)
      ensures this.cls == cls
    {
      this.cls := cls;
    }
  }

  /** The metaclass, holding the class-level `_instances` dictionary. */
  class SingletonMeta {
    var instances: map<ClassKey, Singleton>

    constructor ()
      ensures instances == map[]
    {
      instances := map[];
    }

    /**
     * `SingletonMeta.__call__` for class `cls` called with positional
     * arguments `args`. An existing instance is returned whatever the
     * arguments; otherwise a fresh instance is constructed and recorded,
     * unless construction raises, which leaves `_instances` as it was.
     */
    method Call(cls: ClassKey, args: seq<string>) returns (r: Result<Singleton, Error>)
      modifies this
      ensures cls in old(instances) ==> r == Success(old(instances)[cls]) && instances == old(instances)
      ensures cls !in old(instances) && args != [] ==> r == Failure(TypeError) && instances == old(instances)
      ensures cls !in old(instances) && args == [] ==>
                r.Success? && fresh(r.value) && r.value.cls == cls &&
                (instances, r.value) == Registry.GetOrCreate(old(instances), cls, r.value)
      ensures r.Success? ==> cls in instances && r.value == instances[cls]
    {
      if cls !in instances {
        if args != [] {
          return Failure(TypeError);
        }
        var instance := new Singleton(cls);
        instances := instances[cls := instance];
      }
      r := Success(instances[cls]);
    }
  }

  /**
   * The demo: `s1 = Singleton()` and `s2 = Singleton()` on a fresh registry
   * give the same object, so `id(s1) == id(s2)` holds.
   */
  method Demo() returns (sameInstance: bool)
    ensures sameInstance
  {
    var meta := new SingletonMeta();
    var s1 := meta.Call("Singleton", []);
    var s2 := meta.Call("Singleton", []);
    sameInstance := s1.Success? && s2.Success? && s1.value == s2.value;
  }

  /**
   * Once the instance exists, later calls succeed even with arguments that
   * construction would reject: the arguments are never looked at.
   */
  method LaterArgumentsIgnored(args: seq<string>) returns (first: Result<Singleton, Error>, later: Result<Singleton, Error>)
    ensures first.Success? && later == first
  {
    var meta := new SingletonMeta();
    first := meta.Call("Singleton", []);
    later := meta.Call("Singleton", args);
  }
}
