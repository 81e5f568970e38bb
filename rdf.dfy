/** RDF terms, triples and graphs, and the triple-pattern queries of rdflib that the core uses. */
module Rdf {
  import opened Wrappers
  import opened Strings

  datatype Term =
    | Uri(iri: string)
    | BNode(id: nat)
    | Lit(lex: string, dtype: Option<string>)

  datatype Triple = Triple(s: Term, p: Term, o: Term)

  /**
   * `str(term)`: the IRI of a URI, the lexical form of a literal, and the identifier of a blank
   * node (here its number written in decimal).
   */
  function Text(t: Term): (r: string)
    ensures t.Uri? ==> r == t.iri
    ensures t.Lit? ==> r == t.lex
  {
    match t
    case Uri(iri) => iri
    case BNode(id) => NatToString(id)
    case Lit(lex, _) => lex
  }

  /** A graph is an unordered set of triples. */
  type Graph = set<Triple>

  /**
   * rdflib answers `g.value(s, p)` with whichever matching object its store yields first.
   * That choice is modelled by a function from the set of candidates to one of them.
   */
  type Chooser = set<Term> -> Term

  ghost predicate FairChooser(pick: Chooser) {
    forall s: set<Term> :: s != {} ==> pick(s) in s
  }

  // ---- well-known namespaces (rdflib's RDF, RDFS, OWL, XSD and the FHIR namespaces) ----

  const FHIR_NS: string := "http://hl7.org/fhir/"
  const W5_NS: string := "http://hl7.org/fhir/w5#"
  const RDF_NS: string := "http://www.w3.org/1999/02/22-rdf-syntax-ns#"
  const RDFS_NS: string := "http://www.w3.org/2000/01/rdf-schema#"
  const OWL_NS: string := "http://www.w3.org/2002/07/owl#"
  const XSD_NS: string := "http://www.w3.org/2001/XMLSchema#"

  function Fhir(local: string): Term { Uri(FHIR_NS + local) }
  function Owl(local: string): Term { Uri(OWL_NS + local) }
  function Xsd(local: string): Term { Uri(XSD_NS + local) }

  /** Terms of the FHIR RDF vocabulary that more than one component uses. */
  const FHIR_VALUE: Term := Fhir("value")
  const FHIR_INDEX: Term := Fhir("index")
  const FHIR_LINK: Term := Fhir("link")
  const FHIR_NODE_ROLE: Term := Fhir("nodeRole")

  const OWL_VERSION_IRI: Term := Owl("versionIRI")

  const RDF_TYPE: Term := Uri(RDF_NS + "type")
  const RDFS_SUBCLASSOF: Term := Uri(RDFS_NS + "subClassOf")
  const RDFS_DOMAIN: Term := Uri(RDFS_NS + "domain")
  const RDFS_RANGE: Term := Uri(RDFS_NS + "range")

  // ---- queries ----

  /** `g.objects(s, p)`; a missing subject (None) is a wildcard, as in rdflib. */
  function ObjectsOf(g: Graph, s: Option<Term>, p: Term): (r: set<Term>)
    ensures forall o :: o in r <==> exists t :: t in g && (s.None? || t.s == s.value) && t.p == p && t.o == o
  {
    set t | t in g && (s.None? || t.s == s.value) && t.p == p :: t.o
  }

  /** `g.objects(s, p)`. */
  function Objects(g: Graph, s: Term, p: Term): (r: set<Term>)
    ensures forall o :: o in r <==> Triple(s, p, o) in g
  {
    assert forall o :: Triple(s, p, o) in g ==> o in ObjectsOf(g, Some(s), p);
    ObjectsOf(g, Some(s), p)
  }

  /** `g.subjects(p, o)`. */
  function Subjects(g: Graph, p: Term, o: Term): (r: set<Term>)
    ensures forall s :: s in r <==> Triple(s, p, o) in g
  {
    set t | t in g && t.p == p && t.o == o :: t.s
  }

  /** `g.subjects()`: every term in subject position. */
  function AllSubjects(g: Graph): (r: set<Term>)
    ensures forall s :: s in r <==> exists t :: t in g && t.s == s
  {
    set t | t in g :: t.s
  }

  /** `(s, None, None) in g`. */
  predicate HasSubject(g: Graph, s: Term) {
    exists t :: t in g && t.s == s
  }

  /** The triples whose subject is `s` (`g.predicate_objects(s)`, kept as whole triples). */
  function Outgoing(g: Graph, s: Term): (r: Graph)
    ensures r <= g
    ensures forall t :: t in r <==> t in g && t.s == s
  {
    set t | t in g && t.s == s
  }

  /** `g.value(s, p)`: None when there is no object, otherwise the object the store yields. */
  function Value(g: Graph, s: Term, p: Term, pick: Chooser): (r: Option<Term>)
    ensures r.None? <==> Objects(g, s, p) == {}
    ensures FairChooser(pick) && r.Some? ==> Triple(s, p, r.value) in g
  {
    var os := Objects(g, s, p);
    if os == {} then None else Some(pick(os))
  }

  /** A value that is unique leaves the store no choice. */
  lemma ValueUnique(g: Graph, s: Term, p: Term, o: Term, pick: Chooser)
    requires FairChooser(pick)
    requires Objects(g, s, p) == {o}
    ensures Value(g, s, p, pick) == Some(o)
  {
  }

  /** A blank node numbered `n` or above is not yet in use. */
  predicate BNodeBelow(t: Term, n: nat) {
    t.BNode? ==> t.id < n
  }

  /** Every blank node of `g` is numbered below `n`. */
  ghost predicate NumberedBelow(g: Graph, n: nat) {
    forall t :: t in g ==> BNodeBelow(t.s, n) && BNodeBelow(t.o, n)
  }

  /** `b` occurs in no triple of `g`. */
  ghost predicate Unused(g: Graph, b: Term) {
    forall t :: t in g ==> t.s != b && t.o != b
  }

  /**
   * An rdflib `Graph` that is filled in place: its triples, to which `Add` adds one, and the
   * supply of blank nodes, which hands out each number once.
   */
  class GraphStore {
    var triples: Graph
    var nextBNode: nat

    constructor ()
      ensures triples == {} && nextBNode == 0
    {
      triples := {};
      nextBNode := 0;
    }

    /** No triple mentions a blank node the supply has not handed out yet. */
    ghost predicate Fresh()
      reads this
    {
      NumberedBelow(triples, nextBNode)
    }

    /** `g.add(t)`. */
    method Add(t: Triple)
      modifies this
      ensures triples == old(triples) + {t} && nextBNode == old(nextBNode)
    {
      triples := triples + {t};
    }

    /** `BNode()`: a blank node that no triple of the store mentions. */
    method NewBNode() returns (b: Term)
      requires Fresh()
      modifies this
      ensures b == BNode(old(nextBNode)) && nextBNode == old(nextBNode) + 1
      ensures triples == old(triples) && Fresh()
      ensures Unused(triples, b)
    {
      b := BNode(nextBNode);
      nextBNode := nextBNode + 1;
    }
  }
}
