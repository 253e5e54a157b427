/**
 * Abstract Factory (src/AbstractFactory/Conceptual/main.py).
 *
 * Each concrete factory produces one variant of product A and product B. A
 * B product can collaborate with any A product: it asks the A product for
 * its result and wraps it in a message of its own variant.
 */
module AbstractFactory {
  import opened Wrappers

  /** The two product families. */
  datatype Variant = Variant1 | Variant2

  datatype Factory = ConcreteFactory1 | ConcreteFactory2 {
    function Variant(): Variant {
      match this
      case ConcreteFactory1 => Variant1
      case ConcreteFactory2 => Variant2
    }
  }

  datatype ProductA = ConcreteProductA1 | ConcreteProductA2 {
    function Variant(): Variant {
      match this
      case ConcreteProductA1 => Variant1
      case ConcreteProductA2 => Variant2
    }

    /** The name of the product's concrete class. */
    function ClassName(): string {
      match this
      case ConcreteProductA1 => "ConcreteProductA1"
      case ConcreteProductA2 => "ConcreteProductA2"
    }
  }

  datatype ProductB = ConcreteProductB1 | ConcreteProductB2 {
    function Variant(): Variant {
      match this
      case ConcreteProductB1 => Variant1
      case ConcreteProductB2 => Variant2
    }

    /** The name of the product's concrete class. */
    function ClassName(): string {
      match this
      case ConcreteProductB1 => "ConcreteProductB1"
      case ConcreteProductB2 => "ConcreteProductB2"
    }
  }

  /** The text both A products put in front of their class name. */
  const ReturningFrom: string := "esta regresando de aqui -> "

  /** `s` occurs inside `t` starting at index `i`. */
  predicate OccursAt(t: string, s: string, i: int) {
    0 <= i <= |t| - |s| && t[i..i + |s|] == s
  }

  /** `s` occurs somewhere inside `t`. */
  ghost predicate Contains(t: string, s: string) {
    exists i :: OccursAt(t, s, i)
  }

  /** `create_product_a`: the A product of the factory's own variant. */
  function CreateProductA(f: Factory): (a: ProductA)
    ensures a.Variant() == f.Variant()
  {
    match f
    case ConcreteFactory1 => ConcreteProductA1
    case ConcreteFactory2 => ConcreteProductA2
  }

  /** `create_product_b`: the B product of the factory's own variant. */
  function CreateProductB(f: Factory): (b: ProductB)
    ensures b.Variant() == f.Variant()
  {
    match f
    case ConcreteFactory1 => ConcreteProductB1
    case ConcreteFactory2 => ConcreteProductB2
  }

  /** A factory's two products always belong to the same family. */
  lemma FamilyConsistent(f: Factory)
    ensures CreateProductA(f).Variant() == CreateProductB(f).Variant()
  {
  }

  /** `useful_function_a`: a fixed text ending in the product's own class name. */
  function UsefulFunctionA(a: ProductA): (r: string)
    ensures |r| == |ReturningFrom| + |a.ClassName()|
    ensures r[..|ReturningFrom|] == ReturningFrom
    ensures r[|ReturningFrom|..] == a.ClassName()
  {
    ReturningFrom + a.ClassName()
  }

  /** The two A products give different results, so the result tells the variant. */
  lemma UsefulFunctionAInjective(a: ProductA, a': ProductA)
    requires UsefulFunctionA(a) == UsefulFunctionA(a')
    ensures a == a'
  {
    var n := |ReturningFrom| + 16;
    assert UsefulFunctionA(a)[n] == a.ClassName()[16];
    assert UsefulFunctionA(a')[n] == a'.ClassName()[16];
  }

  /** The result B2 reports: the English text the other products replaced by their class name. */
  const ResultOfB2: string := "The result of the product B2."

  /**
   * `useful_function_b`: B1, like the A products, reports the shared text
   * followed by its own class name; B2 keeps its own English sentence, which
   * does not start with that shared text.
   */
  function UsefulFunctionB(b: ProductB): (r: string)
    ensures b.ConcreteProductB1? ==> |r| == |ReturningFrom| + |b.ClassName()| && r[..|ReturningFrom|] == ReturningFrom && r[|ReturningFrom|..] == b.ClassName()
    ensures b.ConcreteProductB2? ==> r == ResultOfB2 && !(|ReturningFrom| <= |r| && r[..|ReturningFrom|] == ReturningFrom)
  {
    match b
    case ConcreteProductB1 =>
      var r := "esta regresando de aqui -> ConcreteProductB1";
      assert r == ReturningFrom + b.ClassName();
      r
    case ConcreteProductB2 =>
      assert ResultOfB2[0] != ReturningFrom[0];
      ResultOfB2
  }

  /** The two B products give different results, so the result tells the variant. */
  lemma UsefulFunctionBInjective(b: ProductB, b': ProductB)
    requires UsefulFunctionB(b) == UsefulFunctionB(b')
    ensures b == b'
  {
  }

  /** The first line `client_code` prints tells which factory it was given. */
  lemma ClientCodeTellsFactory(f: Factory, f': Factory)
    requires ClientCode(f).0 == ClientCode(f').0
    ensures f == f'
  {
    UsefulFunctionBInjective(CreateProductB(f), CreateProductB(f'));
  }

  /** The text a B product puts before its collaborator's result. */
  function CollaborationOpening(b: ProductB): string {
    match b
    case ConcreteProductB1 => "El resultado de la colaboración del B1 con el ("
    case ConcreteProductB2 => "El resultado de la B2 colaborando con la ("
  }

  /**
   * `another_useful_function_b`: the collaborator's result wrapped in the B
   * product's own message. Any A product is accepted, whatever its variant.
   */
  function AnotherUsefulFunctionB(b: ProductB, collaborator: ProductA): (r: string)
    ensures Contains(r, UsefulFunctionA(collaborator))
    ensures Collaborator(b, r) == Some(UsefulFunctionA(collaborator))
  {
    var opening := CollaborationOpening(b);
    var result := UsefulFunctionA(collaborator);
    var r := opening + result + ")";
    assert OccursAt(r, result, |opening|);
    assert r[..|opening|] == opening;
    assert r[|opening|..|r| - 1] == result;
    r
  }

  /** Reads back the collaborator's result from a B product's message, if it is one. */
  function Collaborator(b: ProductB, r: string): (result: Option<string>)
    ensures result.Some? ==> |result.value| + |CollaborationOpening(b)| + 1 == |r|
  {
    var opening := CollaborationOpening(b);
    if |opening| + 1 <= |r| && r[..|opening|] == opening && r[|r| - 1] == ')'
    then Some(r[|opening|..|r| - 1])
    else None
  }

  /** A B product's message tells which A product collaborated. */
  lemma CollaborationInjective(b: ProductB, a: ProductA, a': ProductA)
    requires AnotherUsefulFunctionB(b, a) == AnotherUsefulFunctionB(b, a')
    ensures a == a'
  {
    UsefulFunctionAInjective(a, a');
  }

  /** The two B variants never produce the same message, whatever their collaborators. */
  lemma CollaborationTellsVariant(a: ProductA, a': ProductA)
    ensures AnotherUsefulFunctionB(ConcreteProductB1, a) != AnotherUsefulFunctionB(ConcreteProductB2, a')
  {
    assert AnotherUsefulFunctionB(ConcreteProductB1, a)[19] == 'c';
    assert AnotherUsefulFunctionB(ConcreteProductB2, a')[19] == 'B';
  }

  /**
   * `client_code`: the two lines it prints, the B product's own result and
   * its collaboration with the A product of the same factory.
   */
  function ClientCode(f: Factory): (lines: (string, string))
    ensures lines.0 == UsefulFunctionB(CreateProductB(f))
    ensures Contains(lines.1, UsefulFunctionA(CreateProductA(f)))
    ensures Collaborator(CreateProductB(f), lines.1) == Some(UsefulFunctionA(CreateProductA(f)))
  {
    var productA := CreateProductA(f);
    var productB := CreateProductB(f);
    (UsefulFunctionB(productB), AnotherUsefulFunctionB(productB, productA))
  }

  /** What the demo prints for the first factory. */
  lemma ClientCodeFactory1()
    ensures ClientCode(ConcreteFactory1).0 == "esta regresando de aqui -> ConcreteProductB1"
    ensures ClientCode(ConcreteFactory1).1 ==
      "El resultado de la colaboración del B1 con el (" + "esta regresando de aqui -> ConcreteProductA1" + ")"
  {
    assert UsefulFunctionA(ConcreteProductA1) == "esta regresando de aqui -> ConcreteProductA1";
  }
}
