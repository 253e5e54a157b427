/**
 * Singleton, thread-safe variant (src/Singleton/Conceptual/ThreadSafe/main.py).
 *
 * `SingletonMeta.__call__` takes the metaclass's lock on every call, and
 * inside it checks `_instances` once and constructs and records an instance
 * only when the class has none; it returns the recorded instance after
 * leaving the lock. The lock is a flag here: threads are not modelled, and
 * the helpers that touch `_instances` require the lock to be held.
 */
module SingletonThreadSafe {
  import opened Wrappers
  import Registry

  /** A class using the metaclass, identified by its name. */
  type ClassKey = string

  /**
   * `Singleton.__init__(self, value)` takes exactly one argument; any other
   * number raises this `TypeError`.
   */
  datatype Error = TypeError

  /** An instance of `Singleton`; objects compare by identity. */
  class Singleton {
    const cls: ClassKey
    var value: string

    /** `Singleton.__init__`: stores its argument in `value`. */
    constructor (cls: ClassKey, value: string)
      ensures this.cls == cls && this.value == value
    {
      this.cls := cls;
      this.value := value;
    }
  }

  /** The metaclass, holding the class-level `_instances` dictionary and `_lock`. */
  class SingletonMeta {
    var instances: map<ClassKey, Singleton>
    var locked: bool

    constructor ()
      ensures instances == map[] && !locked
    {
      instances := map[];
      locked := false;
    }

    /** Entering `with cls._lock`. */
    method Acquire()
      requires !locked
      modifies this`locked
      ensures locked
    {
      locked := true;
    }

    /** Leaving `with cls._lock`, normally or by an exception. */
    method Release()
      requires locked
      modifies this`locked
      ensures !locked
    {
      locked := false;
    }

    /** The membership test `cls not in cls._instances`, made under the lock. */
    method Lookup(cls: ClassKey) returns (present: bool)
      requires locked
      ensures present <==> cls in instances
    {
      present := cls in instances;
    }

    /** The insert `cls._instances[cls] = instance`, made under the lock. */
    method Record(cls: ClassKey, instance: Singleton)
      requires locked
      modifies this`instances
      ensures instances == old(instances)[cls := instance]
    {
      instances := instances[cls := instance];
    }

    /**
     * `SingletonMeta.__call__` for class `cls` with positional arguments
     * `args`. The lock is free before and after. An existing instance is
     * returned whatever the arguments; otherwise a fresh instance holding
     * `args[0]` is constructed and recorded, unless construction raises,
     * which leaves `_instances` as it was.
     */
    method Call(cls: ClassKey, args: seq<string>) returns (r: Result<Singleton, Error>)
      requires !locked
      modifies this
      ensures !locked
      ensures cls in old(instances) ==> r == Success(old(instances)[cls]) && instances == old(instances)
      ensures cls !in old(instances) && |args| != 1 ==> r == Failure(TypeError) && instances == old(instances)
      ensures cls !in old(instances) && |args| == 1 ==>
                r.Success? && fresh(r.value) && r.value.cls == cls && r.value.value == args[0] &&
                (instances, r.value) == Registry.GetOrCreate(old(instances), cls, r.value)
      ensures r.Success? ==> cls in instances && r.value == instances[cls]
    {
      Acquire();
      var present := Lookup(cls);
      if !present {
        if |args| != 1 {
          Release();
          return Failure(TypeError);
        }
        var instance := new Singleton(cls, args[0]);
        Record(cls, instance);
      }
      Release();
      r := Success(instances[cls]);
    }
  }

  /**
   * The demo's two calls `test_singleton("FOO")` and `test_singleton("BAR")`,
   * run one after the other in the order the scheduler picks (`fooFirst`).
   * Both see the value of whichever call ran first.
   */
  method Demo(fooFirst: bool) returns (fooSees: string, barSees: string)
    ensures fooSees == barSees
    ensures fooSees == if fooFirst then "FOO" else "BAR"
  {
    var meta := new SingletonMeta();
    var foo, bar;
    if fooFirst {
      foo := meta.Call("Singleton", ["FOO"]);
      bar := meta.Call("Singleton", ["BAR"]);
    } else {
      bar := meta.Call("Singleton", ["BAR"]);
      foo := meta.Call("Singleton", ["FOO"]);
    }
    fooSees := foo.value.value;
    barSees := bar.value.value;
  }
}
