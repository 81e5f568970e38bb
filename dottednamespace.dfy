/**
 * The FHIR dotted notation: `FHIR.Patient.status` is the URI `<base>Patient.status`. An attribute
 * of the namespace appends its name to the base; an attribute of a dotted URI appends '.' and the
 * name, and so on down the chain.
 */
module DottedNamespace {
  import opened Strings
  import opened Rdf

  /** `DottedNamespace.__getattr__` (and `__getattribute__` for `index`): the base followed by the name. */
  function NamespaceAttr(ns: string, item: string): (r: Term)
    ensures r.Uri? && |r.iri| == |ns| + |item|
    ensures StartsWith(r.iri, ns) && r.iri[|ns|..] == item
  {
    Uri(ns + item)
  }

  /** `DottedURIRef.__getattr__`: the URI, a '.', then the name. */
  function RefAttr(ref: Term, item: string): (r: Term)
    requires ref.Uri?
    ensures r.Uri? && StartsWith(r.iri, ref.iri) && r.iri[|ref.iri|..] == "." + item
  {
    Uri(ref.iri + "." + item)
  }

  /** The attributes `items` taken one after another from a dotted URI. */
  function Chain(ref: Term, items: seq<string>): (r: Term)
    requires ref.Uri?
    ensures r.Uri?
    decreases |items|
  {
    if items == [] then ref else Chain(RefAttr(ref, items[0]), items[1..])
  }

  /** The names joined by '.', each one preceded by a '.'. */
  function Dotted(items: seq<string>): string {
    if items == [] then "" else "." + items[0] + Dotted(items[1..])
  }

  /** A chain of attributes spells the names out after the URI, separated by dots. */
  lemma {:induction false} ChainIsDotted(ref: Term, items: seq<string>)
    requires ref.Uri?
    ensures Chain(ref, items) == Uri(ref.iri + Dotted(items))
    decreases |items|
  {
    if items != [] {
      ChainIsDotted(RefAttr(ref, items[0]), items[1..]);
      assert ref.iri + "." + items[0] + Dotted(items[1..]) == ref.iri + Dotted(items);
    }
  }

  /** `FHIR.Patient.status` is `<base>Patient.status`, and `index` is not special. */
  lemma DottedExamples(ns: string)
    ensures Chain(NamespaceAttr(ns, "Patient"), ["status"]) == Uri(ns + "Patient.status")
    ensures NamespaceAttr(ns, "index") == Uri(ns + "index")
  {
    ChainIsDotted(NamespaceAttr(ns, "Patient"), ["status"]);
    assert Dotted(["status"]) == ".status";
  }

  /** The right-hand side of `==`: a URIRef of some kind, or any other value with its text. */
  datatype Operand = URIRefOperand(text: string) | OtherOperand(text: string)

  /** `DottedURIRef.__eq__`: equal to a URIRef with the same text, and to nothing else. */
  predicate RefEquals(ref: Term, other: Operand)
    requires ref.Uri?
  {
    other.URIRefOperand? && ref.iri == other.text
  }

  /** Equality is decided by the text alone whichever URIRef kind the other side is. */
  lemma RefEqualsByText(a: Term, b: Term)
    requires a.Uri? && b.Uri?
    ensures RefEquals(a, URIRefOperand(b.iri)) <==> a == b
    ensures RefEquals(a, URIRefOperand(b.iri)) <==> RefEquals(b, URIRefOperand(a.iri))
  {
  }

  /** Anything that is not a URIRef is unequal, even with the same text. */
  lemma RefNeverEqualsOther(a: Term, text: string)
    requires a.Uri?
    ensures !RefEquals(a, OtherOperand(text))
  {
  }
}
