# Design-pattern demos, modelled in Dafny

This project models the executable core of a small collection of Python
design-pattern demos: the Observer subject's subscriber list, the two
Singleton metaclasses (plain and lock-guarded), the Abstract Factory's
product families and the class Adapter. Each demo is one Dafny module:

- `Observer` (`observer.dfy`): `ConcreteSubject` with `attach`, `detach`,
  `notify` and `some_business_logic`. The `_observers` list is a class
  attribute in the source, so every subject shares it. A `SubjectClass`
  object stands for the single `ConcreteSubject` class object and holds that
  list; every subject of a program is built from that one object, while
  `_state`, assigned through `self`, is per subject. `detach` of an absent
  observer raises `ValueError`, as Python's `list.remove` does; `notify`
  returns the sequence of observers whose `update` it called.
- `Registry` (`registry.dfy`): the get-or-create step shared by both
  `SingletonMeta.__call__` variants, on values, and what a sequence of calls
  hands back.
- `SingletonNonThreadSafe` and `SingletonThreadSafe`: the metaclass as a
  class holding the `_instances` map (and, for the thread-safe one, the
  lock as a flag that is free before and after every call). Construction
  raises `TypeError` on the wrong number of arguments, as Python does: the
  plain `Singleton` has no `__init__` and takes none, the thread-safe one
  takes exactly `value`. That error is only reachable when the class has
  no instance yet, and it leaves `_instances` unchanged.
- `AbstractFactory` (`abstract_factory.dfy`): factories, products and
  their texts as datatypes and functions.
- `Adapter` (`adapter.dfy`): `Target.request`, `Adaptee.specific_request`
  and `Adapter.request` as string functions.

The thread-safe metaclass takes its lock on every call and checks
`_instances` once, inside the lock; there is no unlocked fast-path check
before it, and the model follows the code. The instance is read back after
the lock is released, as on line 66.

## Model

| member | source | states |
|---|---|---|
| `Observer.RemoveFirst` | src/Observer/Conceptual/main.py:88-89 | the list left by `list.remove`: one shorter when the observer is present, unchanged when absent, and its multiset is the old one minus one copy of the observer |
| `Observer.RemoveFirstAt` | src/Observer/Conceptual/main.py:88-89 | removal splices out exactly the first entry equal to the observer; the entries before and after keep their order |
| `Observer.IndexOf` | src/Observer/Conceptual/main.py:89 | the scan `list.remove` performs finds the first index holding the observer, or reports that none does |
| `Observer.SubjectClass.constructor` | src/Observer/Conceptual/main.py:75 | the class-level subscriber list starts empty |
| `Observer.ConcreteSubject.constructor` | src/Observer/Conceptual/main.py:66 | a new subject has no state yet and uses its class's shared list |
| `Observer.ConcreteSubject.Attach` | src/Observer/Conceptual/main.py:84-86 | the list becomes the old list followed by the observer, duplicates kept; the state is unchanged |
| `Observer.ConcreteSubject.Detach` | src/Observer/Conceptual/main.py:88-89 | a present observer loses its first entry; an absent one raises `ValueError` and the list is unchanged; the state is unchanged |
| `Observer.ConcreteSubject.Notify` | src/Observer/Conceptual/main.py:95-102 | `update` is called once per list entry, in list order, and nothing changes |
| `Observer.ConcreteSubject.SomeBusinessLogic` | src/Observer/Conceptual/main.py:104-120 | the state becomes the drawn value in [0, 10), the list is unchanged, and exactly one notification reaches every entry in order |
| `Observer.Demo` | src/Observer/Conceptual/main.py:163-180 | the three notifications reach A then B, then only B, then nobody |
| `Observer.SharedList` | src/Observer/Conceptual/main.py:75-86 | an observer attached through one subject is notified by another subject of the same class |
| `Observer.AttachTwice` | src/Observer/Conceptual/main.py:84-102 | attaching one observer twice makes every notification reach it twice |
| `Registry.GetOrCreate` | src/Singleton/Conceptual/NonThreadSafe/main.py:34-37 | the returned instance is the one recorded for the class; the new instance is recorded only when the class was absent; existing entries are never replaced and the key set grows by the class alone |
| `Registry.SecondCallIgnored` | src/Singleton/Conceptual/NonThreadSafe/main.py:26-37 | a second call for the same class leaves the registry unchanged and returns the first instance, whatever it would have constructed |
| `Registry.Replay` | src/Singleton/Conceptual/ThreadSafe/main.py:63-66 | a sequence of calls keeps every entry that was there, and ends with exactly the old classes plus the called ones |
| `Registry.ReplayHandsBackRecorded` | src/Singleton/Conceptual/ThreadSafe/main.py:66 | every call in a sequence returns the instance the final registry holds for its class |
| `Registry.SameClassSameInstance` | src/Singleton/Conceptual/NonThreadSafe/main.py:57-61 | any two calls for the same class return the same instance |
| `Registry.FirstCallWins` | src/Singleton/Conceptual/ThreadSafe/main.py:31-39 | for a class not yet registered, every call returns the instance made by its first call: later constructor arguments have no effect |
| `SingletonNonThreadSafe.Singleton.constructor` | src/Singleton/Conceptual/NonThreadSafe/main.py:40-51 | a new instance belongs to the class it was made for |
| `SingletonNonThreadSafe.SingletonMeta.constructor` | src/Singleton/Conceptual/NonThreadSafe/main.py:24 | `_instances` starts empty |
| `SingletonNonThreadSafe.SingletonMeta.Call` | src/Singleton/Conceptual/NonThreadSafe/main.py:26-37 | an existing instance is returned and nothing changes; otherwise a fresh instance is recorded under the class and returned, or construction with arguments raises `TypeError` and nothing changes |
| `SingletonNonThreadSafe.Demo` | src/Singleton/Conceptual/NonThreadSafe/main.py:54-64 | the two calls return the identical object |
| `SingletonNonThreadSafe.LaterArgumentsIgnored` | src/Singleton/Conceptual/NonThreadSafe/main.py:26-37 | once the instance exists, a call with any arguments returns it |
| `SingletonThreadSafe.Singleton.constructor` | src/Singleton/Conceptual/ThreadSafe/main.py:77-78 | `__init__` stores its argument in `value` |
| `SingletonThreadSafe.SingletonMeta.constructor` | src/Singleton/Conceptual/ThreadSafe/main.py:19-21 | `_instances` starts empty and the lock free |
| `SingletonThreadSafe.SingletonMeta.Acquire` | src/Singleton/Conceptual/ThreadSafe/main.py:51 | entering the `with` block takes a free lock |
| `SingletonThreadSafe.SingletonMeta.Release` | src/Singleton/Conceptual/ThreadSafe/main.py:51-65 | leaving the `with` block frees the held lock |
| `SingletonThreadSafe.SingletonMeta.Lookup` | src/Singleton/Conceptual/ThreadSafe/main.py:63 | the membership check is made with the lock held and reports whether the class is registered |
| `SingletonThreadSafe.SingletonMeta.Record` | src/Singleton/Conceptual/ThreadSafe/main.py:65 | the insert is made with the lock held and adds exactly that entry |
| `SingletonThreadSafe.SingletonMeta.Call` | src/Singleton/Conceptual/ThreadSafe/main.py:31-66 | the lock is free before and after; an existing instance is returned and nothing changes; otherwise a fresh instance holding the first argument is recorded and returned, or construction with the wrong arity raises `TypeError` and nothing changes |
| `SingletonThreadSafe.Demo` | src/Singleton/Conceptual/ThreadSafe/main.py:91-113 | whichever of the "FOO" and "BAR" calls runs first, both see its value |
| `AbstractFactory.CreateProductA` | src/AbstractFactory/Conceptual/main.py:51-66 | the A product is of the factory's own variant |
| `AbstractFactory.CreateProductB` | src/AbstractFactory/Conceptual/main.py:54-69 | the B product is of the factory's own variant |
| `AbstractFactory.FamilyConsistent` | src/AbstractFactory/Conceptual/main.py:38-69 | a factory's two products share a variant |
| `AbstractFactory.UsefulFunctionA` | src/AbstractFactory/Conceptual/main.py:93-103 | the result is a fixed text followed by the product's own class name |
| `AbstractFactory.UsefulFunctionAInjective` | src/AbstractFactory/Conceptual/main.py:93-103 | the two A products give different results |
| `AbstractFactory.UsefulFunctionB` | src/AbstractFactory/Conceptual/main.py:141-164 | B1 reports the shared text followed by its own class name; B2 reports its own sentence, which does not start with that shared text |
| `AbstractFactory.UsefulFunctionBInjective` | src/AbstractFactory/Conceptual/main.py:141-164 | the two B products give different results, so the result tells the variant |
| `AbstractFactory.ClientCodeTellsFactory` | src/AbstractFactory/Conceptual/main.py:190-193 | the first line `client_code` prints determines which factory it was given |
| `AbstractFactory.AnotherUsefulFunctionB` | src/AbstractFactory/Conceptual/main.py:156-177 | for any pair of products, matched or not, the result contains the collaborator's result and gives it back when read with the B product's template |
| `AbstractFactory.Collaborator` | src/AbstractFactory/Conceptual/main.py:156-177 | reading a message with a B template recovers a text exactly as long as the message minus the template |
| `AbstractFactory.CollaborationInjective` | src/AbstractFactory/Conceptual/main.py:156-177 | a B product's message determines which A product collaborated |
| `AbstractFactory.CollaborationTellsVariant` | src/AbstractFactory/Conceptual/main.py:156-177 | B1 and B2 never produce the same message |
| `AbstractFactory.ClientCode` | src/AbstractFactory/Conceptual/main.py:180-194 | the first line is the B product's result and the second contains the result of the same factory's A product |
| `AbstractFactory.ClientCodeFactory1` | src/AbstractFactory/Conceptual/main.py:197-202 | the demo's two lines for the first factory, spelled out |
| `Adapter.Reverse` | src/Adapter/Conceptual/class/main.py:45 | `s[::-1]`: same length, and element `i` is element `len - 1 - i` of the input |
| `Adapter.ReverseInvolution` | src/Adapter/Conceptual/class/main.py:45 | reversing twice gives back the text |
| `Adapter.Translate` | src/Adapter/Conceptual/class/main.py:44-45 | the prefix followed by text whose reversal is the adaptee's answer; the length is the prefix's plus the answer's |
| `Adapter.Untranslate` | src/Adapter/Conceptual/class/main.py:44-45 | a text is read back exactly when it starts with the prefix |
| `Adapter.UntranslateTranslate` | src/Adapter/Conceptual/class/main.py:44-45 | reading back a translation gives the adaptee's answer |
| `Adapter.Request` | src/Adapter/Conceptual/class/main.py:16-45 | a plain target returns its fixed text, which is not a translation; the adapter returns a translation of `specific_request()` of the expected length |
| `Adapter.SpecificRequest` | src/Adapter/Conceptual/class/main.py:31-32 | `Adaptee.specific_request` returns a sentence written backwards: reversed, it reads "Special behavior of the Adaptee." |
| `Adapter.SpecificBehaviorReversed` | src/Adapter/Conceptual/class/main.py:32 | the adaptee's literal text, reversed, is "Special behavior of the Adaptee." |
| `Adapter.AdapterText` | src/Adapter/Conceptual/class/main.py:44-71 | the adapter's request is "Adapter: (TRANSLATED) Special behavior of the Adaptee." |

## Left out

- Threads: the thread-safe demo starts two threads; the model runs the two calls one after the other, in either order. Blocking on the lock and scheduling are not modelled; the lock is a flag.
- Console output: every `print`, including those inside `useful_function_a` of A1, `another_useful_function_b` of B1, `attach`, `notify` and `some_business_logic`.
- Randomness: `randrange(0, 10)` becomes a parameter required to lie in [0, 10).
- Observer.SubjectClass.constructor: the model can create several `SubjectClass` objects, each with its own list; Python has exactly one `ConcreteSubject` class object, and only programs that build every subject from one `SubjectClass` correspond to the source.
- Observer `update` bodies only print; an observer is an identifier (class and identity), and the subject passed to `update` is not recorded in the notification trace.
- Python machinery: abstract base classes become datatypes or are dropped, metaclass call interception becomes an explicit `Call` method, multiple inheritance of the Adapter becomes a function over the adaptee's answer, and `id()` becomes reference equality.
- Keyword arguments to the Singleton constructors are not modelled; positional arguments are a sequence of strings.
- SingletonNonThreadSafe.SingletonMeta.Call and SingletonThreadSafe.SingletonMeta.Call: every class using the metaclass is given the constructor of that file's `Singleton` class, the only class that uses it.
- The `some_business_logic` stubs of both Singleton classes have no behaviour.
