/**
 * Observer (src/Observer/Conceptual/main.py).
 *
 * A subject keeps an ordered list of subscribed observers; `attach` appends,
 * `detach` removes the first equal entry (Python's `list.remove`, which raises
 * `ValueError` when there is none), and `notify` calls `update` on every entry
 * in list order. The list is a class attribute of `ConcreteSubject`, so every
 * subject shares it: it lives here in a `SubjectClass` object that each
 * `ConcreteSubject` refers to. The state is assigned through `self`, so each
 * subject has its own.
 */
module Observer {
  import opened Wrappers

  /** The two concrete observer classes of the demo. */
  datatype ObserverKind = ConcreteObserverA | ConcreteObserverB

  /** An observer object: its class and an identity that tells objects apart. */
  datatype ObserverRef = ObserverRef(kind: ObserverKind, id: nat)

  /** The exception `list.remove` raises for an element that is not in the list. */
  datatype Error = ValueError

  /** The list `list.remove(o)` leaves behind: `s` without its first `o`. */
  function RemoveFirst<T(==)>(s: seq<T>, o: T): (r: seq<T>)
    ensures o in s ==> |r| == |s| - 1
    ensures o !in s ==> r == s
    ensures multiset(r) == multiset(s) - multiset{o}
  {
    if s == [] then []
    else
      assert s == [s[0]] + s[1..];
      if s[0] == o then s[1..] else [s[0]] + RemoveFirst(s[1..], o)
  }

  /**
   * Removing the first `o` splices out exactly the entry at the first index
   * holding `o`: the entries before and after it keep their order.
   */
  lemma {:induction false} RemoveFirstAt<T>(s: seq<T>, o: T, k: nat)
    requires k < |s| && s[k] == o && o !in s[..k]
    ensures RemoveFirst(s, o) == s[..k] + s[k + 1..]
  {
    if k > 0 {
      assert s[0] != o by { assert s[0] == s[..k][0]; }
      assert o !in s[1..][..k - 1] by { assert s[1..][..k - 1] == s[..k][1..]; }
      RemoveFirstAt(s[1..], o, k - 1);
      assert s[..k] == [s[0]] + s[1..][..k - 1];
      assert s[k + 1..] == s[1..][k..];
    }
  }

  /**
   * The linear scan `list.remove` performs: the index of the first entry equal
   * to `o`, or `None` when there is none.
   */
  method IndexOf(s: seq<ObserverRef>, o: ObserverRef) returns (r: Option<nat>)
    ensures r.Some? ==> r.value < |s| && s[r.value] == o && o !in s[..r.value]
    ensures r.None? ==> o !in s
  {
    var i := 0;
    while i < |s|
      invariant 0 <= i <= |s|
      invariant o !in s[..i]
    {
      if s[i] == o {
        return Some(i);
      }
      assert s[..i + 1] == s[..i] + [s[i]];
      i := i + 1;
    }
    assert s[..i] == s;
    r := None;
  }

  /**
   * The class object `ConcreteSubject` and its class-level attribute
   * `_observers`. A program has exactly one such object, and every subject it
   * creates is built from it; creating a second one stands for nothing in the
   * source.
   */
  class SubjectClass {
    var observers: seq<ObserverRef>

    /** The class is defined with an empty list. */
    constructor ()
      ensures observers == []
    {
      observers := [];
    }
  }

  class ConcreteSubject {
    /** The class whose `_observers` list this subject reads and updates. */
    const shared: SubjectClass
    /** `_state`: `None` until the first business-logic run. */
    var state: Option<int>

    constructor (cls: SubjectClass)
      ensures shared == cls && state == None
    {
      shared := cls;
      state := None;
    }

    /** `attach`: appends `o`, keeping earlier entries (duplicates included). */
    method Attach(o: ObserverRef)
      modifies shared
      ensures shared.observers == old(shared.observers) + [o]
      ensures state == old(state)
    {
      shared.observers := shared.observers + [o];
    }

    /**
     * `detach`: removes the first entry equal to `o`; when there is none, the
     * call raises `ValueError` and the list is unchanged.
     */
    method Detach(o: ObserverRef) returns (r: Outcome<Error>)
      modifies shared
      ensures o in old(shared.observers) ==> r == Pass && shared.observers == RemoveFirst(old(shared.observers), o)
      ensures o !in old(shared.observers) ==> r == Fail(ValueError) && shared.observers == old(shared.observers)
      ensures state == old(state)
    {
      var k := IndexOf(shared.observers, o);
      match k
      case None =>
        r := Fail(ValueError);
      case Some(i) =>
        RemoveFirstAt(shared.observers, o, i);
        shared.observers := shared.observers[..i] + shared.observers[i + 1..];
        r := Pass;
    }

    /**
     * `notify`: calls `update` on each subscribed observer, one call per
     * entry, in list order. The result is the sequence of observers called.
     */
    method Notify() returns (updated: seq<ObserverRef>)
      ensures updated == shared.observers
    {
      updated := [];
      var i := 0;
      while i < |shared.observers|
        invariant 0 <= i <= |shared.observers|
        invariant updated == shared.observers[..i]
      {
        updated := updated + [shared.observers[i]];
        i := i + 1;
      }
    }

    /**
     * `some_business_logic`: stores a new state, drawn by `randrange(0, 10)`
     * and passed in here as `draw`, then notifies once.
     */
    method SomeBusinessLogic(draw: int) returns (updated: seq<ObserverRef>)
      requires 0 <= draw < 10
      modifies this
      ensures state == Some(draw)
      ensures shared.observers == old(shared.observers)
      ensures updated == shared.observers
    {
      state := Some(draw);
      updated := Notify();
    }
  }

  /**
   * The demo: attach A and B, run the business logic, detach A, run it
   * again, detach B, run it a third time. The three notifications reach
   * A then B, then only B, then nobody.
   */
  method Demo(draw1: int, draw2: int, draw3: int) returns (first: seq<ObserverRef>, second: seq<ObserverRef>, third: seq<ObserverRef>)
    requires 0 <= draw1 < 10 && 0 <= draw2 < 10 && 0 <= draw3 < 10
    ensures first == [ObserverRef(ConcreteObserverA, 0), ObserverRef(ConcreteObserverB, 1)]
    ensures second == [ObserverRef(ConcreteObserverB, 1)]
    ensures third == []
  {
    var cls := new SubjectClass();
    var subject := new ConcreteSubject(cls);
    var observerA := ObserverRef(ConcreteObserverA, 0);
    subject.Attach(observerA);
    var observerB := ObserverRef(ConcreteObserverB, 1);
    subject.Attach(observerB);
    first := subject.SomeBusinessLogic(draw1);
    var detachedA := subject.Detach(observerA);
    assert detachedA == Pass;
    second := subject.SomeBusinessLogic(draw2);
    var detachedB := subject.Detach(observerB);
    assert detachedB == Pass;
    third := subject.SomeBusinessLogic(draw3);
  }

  /**
   * Because the list belongs to the class, an observer attached through one
   * subject is notified by every other subject of that class.
   */
  method SharedList(o: ObserverRef) returns (updated: seq<ObserverRef>)
    ensures updated == [o]
  {
    var cls := new SubjectClass();
    var one := new ConcreteSubject(cls);
    var other := new ConcreteSubject(cls);
    one.Attach(o);
    updated := other.Notify();
  }

  /** Attaching the same observer twice makes it appear twice in every notification. */
  method AttachTwice(o: ObserverRef) returns (updated: seq<ObserverRef>)
    ensures updated == [o, o]
  {
    var cls := new SubjectClass();
    var subject := new ConcreteSubject(cls);
    subject.Attach(o);
    subject.Attach(o);
    updated := subject.Notify();
  }
}
