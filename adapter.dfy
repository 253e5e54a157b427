/**
 * Class Adapter (src/Adapter/Conceptual/class/main.py).
 *
 * `Adaptee.specific_request` returns its text backwards; `Adapter.request`
 * puts it the right way round again behind a fixed prefix, so that client
 * code written against `Target.request` can use it.
 */
module Adapter {
  import opened Wrappers

  /** What `Target.request` returns. */
  const DefaultBehavior: string := "Target: The default target's behavior."

  /** What `Adaptee.specific_request` returns. */
  const SpecificBehavior: string := ".eetpadA eht fo roivaheb laicepS"

  /** The text `Adapter.request` puts in front of the translated request. */
  const TranslatedPrefix: string := "Adapter: (TRANSLATED) "

  /** The objects client code can be handed: a plain `Target` or an `Adapter`. */
  datatype TargetObject = PlainTarget | AdapterObject

  /** Python's `s[::-1]`: element `i` of the result is element `|s| - 1 - i` of `s`. */
  function Reverse(s: string): (r: string)
    ensures |r| == |s|
    ensures forall i :: 0 <= i < |s| ==> r[i] == s[|s| - 1 - i]
  {
    if s == [] then [] else Reverse(s[1..]) + [s[0]]
  }

  /** Reversing twice gives back the original text. */
  lemma ReverseInvolution(s: string)
    ensures Reverse(Reverse(s)) == s
  {
    var r := Reverse(s);
    assert forall i :: 0 <= i < |s| ==> Reverse(r)[i] == r[|s| - 1 - i] == s[i];
  }

  /** `Adaptee.specific_request`: a sentence written backwards. */
  function SpecificRequest(): (r: string)
    ensures Reverse(r) == "Special behavior of the Adaptee."
  {
    SpecificBehaviorReversed();
    SpecificBehavior
  }

  /** Reversal turns a text split in four into the reversed pieces in the opposite order. */
  lemma ReverseOfFour(a: string, b: string, c: string, d: string)
    ensures Reverse(a + b + c + d) == Reverse(d) + Reverse(c) + Reverse(b) + Reverse(a)
  {
    ReverseAppend(a + b + c, d);
    ReverseAppend(a + b, c);
    ReverseAppend(a, b);
  }

  /** Reversing a concatenation reverses the pieces and swaps them. */
  lemma ReverseAppend(a: string, b: string)
    ensures Reverse(a + b) == Reverse(b) + Reverse(a)
  {
    assert forall i :: 0 <= i < |a + b| ==> Reverse(a + b)[i] == (Reverse(b) + Reverse(a))[i];
  }

  /** The adaptee's text, read backwards, is the sentence "Special behavior of the Adaptee.". */
  lemma SpecificBehaviorReversed()
    ensures Reverse(SpecificBehavior) == "Special behavior of the Adaptee."
  {
    ReverseOfWords(SpecificBehavior, ".eetpadA", " eht fo ", "roivaheb", " laicepS");
    SentenceOfWords(Reverse(SpecificBehavior));
  }

  // The six helpers below (ReverseOfWords, the four Reversed* lemmas and
  // SentenceOfWords), like PrefixedSentence further down, keep the long
  // literals out of each other's proof: the solver handles each 8-character
  // word on its own.

  lemma ReverseOfWords(s: string, a: string, b: string, c: string, d: string)
    requires a == ".eetpadA" && b == " eht fo " && c == "roivaheb" && d == " laicepS"
    requires s == a + b + c + d
    ensures Reverse(s) == "Special " + "behavior" + " of the " + "Adaptee."
  {
    ReverseOfFour(a, b, c, d);
    ReversedSpecial();
    ReversedBehavior();
    ReversedOfThe();
    ReversedAdaptee();
  }

  lemma ReversedSpecial()
    ensures Reverse(" laicepS") == "Special "
  {
    var r := Reverse(" laicepS");
    assert r[0] == 'S' && r[1] == 'p' && r[2] == 'e' && r[3] == 'c' && r[4] == 'i' && r[5] == 'a' && r[6] == 'l' && r[7] == ' ';
  }

  lemma ReversedBehavior()
    ensures Reverse("roivaheb") == "behavior"
  {
    var r := Reverse("roivaheb");
    assert r[0] == 'b' && r[1] == 'e' && r[2] == 'h' && r[3] == 'a' && r[4] == 'v' && r[5] == 'i' && r[6] == 'o' && r[7] == 'r';
  }

  lemma ReversedOfThe()
    ensures Reverse(" eht fo ") == " of the "
  {
    var r := Reverse(" eht fo ");
    assert r[0] == ' ' && r[1] == 'o' && r[2] == 'f' && r[3] == ' ' && r[4] == 't' && r[5] == 'h' && r[6] == 'e' && r[7] == ' ';
  }

  lemma ReversedAdaptee()
    ensures Reverse(".eetpadA") == "Adaptee."
  {
    var r := Reverse(".eetpadA");
    assert r[0] == 'A' && r[1] == 'd' && r[2] == 'a' && r[3] == 'p' && r[4] == 't' && r[5] == 'e' && r[6] == 'e' && r[7] == '.';
  }

  lemma SentenceOfWords(x: string)
    requires x == "Special " + "behavior" + " of the " + "Adaptee."
    ensures x == "Special behavior of the Adaptee."
  {
  }

  /** The adapter's translation of an adaptee's answer `s`. */
  function Translate(s: string): (r: string)
    ensures |r| == |TranslatedPrefix| + |s|
    ensures r[..|TranslatedPrefix|] == TranslatedPrefix
    ensures Reverse(r[|TranslatedPrefix|..]) == s
  {
    var r := TranslatedPrefix + Reverse(s);
    assert r[|TranslatedPrefix|..] == Reverse(s);
    ReverseInvolution(s);
    r
  }

  /** Recovers the adaptee's answer from a translated text, if it is one. */
  function Untranslate(r: string): (s: Option<string>)
    ensures s.Some? <==> |TranslatedPrefix| <= |r| && r[..|TranslatedPrefix|] == TranslatedPrefix
  {
    if |TranslatedPrefix| <= |r| && r[..|TranslatedPrefix|] == TranslatedPrefix
    then Some(Reverse(r[|TranslatedPrefix|..]))
    else None
  }

  /** Translating and then untranslating gives back every adaptee answer. */
  lemma UntranslateTranslate(s: string)
    ensures Untranslate(Translate(s)) == Some(s)
  {
  }

  /** `Target.request` and `Adapter.request`, chosen by the object client code holds. */
  function Request(t: TargetObject): (r: string)
    ensures t.PlainTarget? ==> r == DefaultBehavior && Untranslate(r) == None
    ensures t.AdapterObject? ==> Untranslate(r) == Some(SpecificRequest())
    ensures t.AdapterObject? ==> |r| == |TranslatedPrefix| + |SpecificRequest()|
  {
    match t
    case PlainTarget =>
      assert DefaultBehavior[0] != TranslatedPrefix[0];
      DefaultBehavior
    case AdapterObject => Translate(SpecificRequest())
  }

  /** What the demo's adapter prints. */
  lemma AdapterText()
    ensures Request(AdapterObject) == "Adapter: (TRANSLATED) Special behavior of the Adaptee."
  {
    PrefixedSentence(Request(AdapterObject));
  }

  lemma PrefixedSentence(x: string)
    requires x == TranslatedPrefix + "Special behavior of the Adaptee."
    ensures x == "Adapter: (TRANSLATED) Special behavior of the Adaptee."
  {
  }
}
