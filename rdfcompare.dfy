/**
 * Comparison of two FHIR RDF graphs. Blank nodes are renamed ("skolemized") to URIs derived
 * from the path that reaches them, so that the two graphs can be compared triple by triple, one
 * subject at a time.
 */
module RdfCompare {
  import opened Wrappers
  import opened Strings
  import opened Rdf
  import opened Errors


  // ---- names for blank nodes ----

  function IdxSuffix(idx: Option<string>): string {
    if idx.Some? then "_" + idx.value else ""
  }

  /** The last step of a predicate URI: the text after its last '/' (empty when it has none). */
  function LocalName(p: string): (r: string)
    ensures '/' !in r
    ensures '/' in p ==> exists head :: p == head + "/" + r
  {
    match RSplit(p, '/')
    case Some((head, local)) => local
    case None => ""
  }

  /** The URI text for the node reached from `s` through `p`, at list position `idx` if any. */
  function SkolemName(s: string, p: string, idx: Option<string>): string {
    s + "." + LocalName(p) + IdxSuffix(idx)
  }

  /**
   * `subj_pred_idx_to_uri`: `s`, a '.', the text after the last '/' of `p`, and "_idx" when an
   * index is given. A predicate without '/' is an IndexError.
   */
  function SubjPredIdxToUri(s: string, p: string, idx: Option<string>): (r: Result<Term, PyError>)
    ensures '/' !in p ==> r == Err(IndexError)
    ensures '/' in p ==> r == Ok(Uri(SkolemName(s, p, idx)))
    ensures r.Ok? ==> StartsWith(r.value.iri, s + ".")
  {
    if '/' !in p then Err(IndexError)
    else
      SkolemNameStarts(s, p, idx);
      Ok(Uri(SkolemName(s, p, idx)))
  }

  lemma SkolemNameStarts(s: string, p: string, idx: Option<string>)
    ensures StartsWith(SkolemName(s, p, idx), s + ".")
  {
    StartsWithAppend(s + ".", LocalName(p), IdxSuffix(idx));
  }

  /** Distinct list positions under one subject and predicate get distinct names. */
  lemma SkolemNameInjective(s: string, p: string, i: Option<string>, j: Option<string>)
    requires SkolemName(s, p, i) == SkolemName(s, p, j)
    ensures i == j
  {
    var pre := s + "." + LocalName(p);
    assert SkolemName(s, p, i) == pre + IdxSuffix(i);
    assert SkolemName(s, p, j) == pre + IdxSuffix(j);
    assert IdxSuffix(i) == (pre + IdxSuffix(i))[|pre|..];
    assert IdxSuffix(j) == (pre + IdxSuffix(j))[|pre|..];
    if i.Some? && j.Some? {
      assert i.value == IdxSuffix(i)[1..];
      assert j.value == IdxSuffix(j)[1..];
    }
  }

  /** A predicate `head/local` names the node `s.local`, followed by `_idx` for a list position. */
  lemma SubjPredIdxOfJoin(s: string, head: string, local: string, idx: Option<string>)
    requires '/' !in local
    ensures SubjPredIdxToUri(s, head + "/" + local, idx) == Ok(Uri(s + "." + local + IdxSuffix(idx)))
  {
    assert head + "/" + local == head + ['/'] + local;
    RSplitOfJoin(head, '/', local);
  }

  /** `Patient/f001` through `fhir:Patient.identifier` at position 0. */
  lemma SubjPredIdxExample()
    ensures SubjPredIdxToUri("Patient/f001", FHIR_NS + "Patient.identifier", Some("0"))
      == Ok(Uri("Patient/f001" + "." + "Patient.identifier" + "_0"))
  {
    assert FHIR_NS == "http://hl7.org/fhir" + "/";
    assert FHIR_NS + "Patient.identifier" == "http://hl7.org/fhir" + "/" + "Patient.identifier";
    SubjPredIdxOfJoin("Patient/f001", "http://hl7.org/fhir", "Patient.identifier", Some("0"));
    assert IdxSuffix(Some("0")) == "_0";
  }

  // ---- well-founded blank-node structure ----

  /** `rank` decreases along every edge into a blank node: no blank node reaches itself. */
  ghost predicate BNodeAcyclic(g: Graph, rank: Term -> nat) {
    forall t :: t in g && t.o.BNode? ==> rank(t.o) < rank(t.s)
  }

  lemma AcyclicSubset(g: Graph, h: Graph, rank: Term -> nat)
    requires BNodeAcyclic(g, rank) && h <= g
    ensures BNodeAcyclic(h, rank)
  {
  }

  // ---- complete_definition ----

  /** The triples reachable from `subj` through blank-node objects (`complete_definition`). */
  ghost function Closure(g: Graph, subj: Term, rank: Term -> nat): Graph
    requires BNodeAcyclic(g, rank)
    decreases rank(subj)
  {
    Outgoing(g, subj) + (set t, u | t in g && t.s == subj && t.o.BNode? && u in Closure(g, t.o, rank) :: u)
  }

  /** The closure lies in the graph, holds the subject's triples, and is closed under blank objects. */
  lemma {:induction false} ClosureProperties(g: Graph, subj: Term, rank: Term -> nat)
    requires BNodeAcyclic(g, rank)
    ensures Closure(g, subj, rank) <= g
    ensures Outgoing(g, subj) <= Closure(g, subj, rank)
    ensures forall t :: t in Closure(g, subj, rank) && t.o.BNode? ==> Outgoing(g, t.o) <= Closure(g, subj, rank)
    decreases rank(subj)
  {
    var c := Closure(g, subj, rank);
    forall t | t in g && t.s == subj && t.o.BNode?
      ensures Closure(g, t.o, rank) <= c
      ensures Closure(g, t.o, rank) <= g
      ensures forall x :: x in Closure(g, t.o, rank) && x.o.BNode? ==> Outgoing(g, x.o) <= Closure(g, t.o, rank)
    {
      ClosureProperties(g, t.o, rank);
    }
    forall x | x in c && x.o.BNode?
      ensures Outgoing(g, x.o) <= c
    {
      if x.s != subj {
        var t, u :| t in g && t.s == subj && t.o.BNode? && u in Closure(g, t.o, rank) && u == x;
      }
    }
  }

  /** The closure does not depend on the rank that shows it is finite. */
  lemma {:induction false} ClosureRankFree(g: Graph, subj: Term, r1: Term -> nat, r2: Term -> nat)
    requires BNodeAcyclic(g, r1) && BNodeAcyclic(g, r2)
    ensures Closure(g, subj, r1) == Closure(g, subj, r2)
    decreases r1(subj)
  {
    forall t | t in g && t.s == subj && t.o.BNode?
      ensures Closure(g, t.o, r1) == Closure(g, t.o, r2)
    {
      ClosureRankFree(g, t.o, r1, r2);
    }
  }

  /** `complete_definition(subj, g, target)`: the closure of `subj` is added to `target`. */
  method CompleteDefinition(subj: Term, g: Graph, target: GraphStore, ghost rank: Term -> nat)
    requires BNodeAcyclic(g, rank)
    modifies target
    ensures target.triples == old(target.triples) + Closure(g, subj, rank)
    decreases rank(subj)
  {
    ghost var start := target.triples;
    var out := Outgoing(g, subj);
    ghost var done: set<Triple> := {};
    while out != {}
      invariant out + done == Outgoing(g, subj) && out !! done
      invariant target.triples == start + done + ClosureThrough(g, done, rank)
      decreases out
    {
      var t :| t in out;
      target.Add(t);
      if t.o.BNode? {
        CompleteDefinition(t.o, g, target, rank);
      }
      ClosureThroughStep(g, done, t, rank);
      out := out - {t};
      done := done + {t};
    }
    ClosureThroughAll(g, subj, done, rank);
  }

  /** The closures of the blank objects of `ts`. */
  ghost function ClosureThrough(g: Graph, ts: set<Triple>, rank: Term -> nat): Graph
    requires BNodeAcyclic(g, rank) && ts <= g
  {
    set t, u | t in ts && t.o.BNode? && u in Closure(g, t.o, rank) :: u
  }

  lemma ClosureThroughStep(g: Graph, ts: set<Triple>, t: Triple, rank: Term -> nat)
    requires BNodeAcyclic(g, rank) && ts <= g && t in g
    ensures ClosureThrough(g, ts + {t}, rank)
      == ClosureThrough(g, ts, rank) + if t.o.BNode? then Closure(g, t.o, rank) else {}
  {
  }

  lemma ClosureThroughAll(g: Graph, subj: Term, done: set<Triple>, rank: Term -> nat)
    requires BNodeAcyclic(g, rank) && done == Outgoing(g, subj)
    ensures done + ClosureThrough(g, done, rank) == Closure(g, subj, rank)
  {
  }

  // ---- skolemize ----

  /** The list position of a blank node, as text: `str(g.value(o, fhir:index))`. */
  function IndexText(g: Graph, o: Term, pick: Chooser): Option<string> {
    match Value(g, o, FHIR_INDEX, pick)
    case None => None
    case Some(i) => Some(Text(i))
  }

  /** The name a blank object of `t` gets when its subject is named `sk`. */
  function ChildName(g: Graph, sk: string, t: Triple, pick: Chooser): string {
    SkolemName(sk, Text(t.p), IndexText(g, t.o, pick))
  }

  /** Every edge into a blank node reachable from `s` has a predicate with a '/'. */
  ghost predicate NamedEdges(g: Graph, s: Term, rank: Term -> nat)
    requires BNodeAcyclic(g, rank)
    decreases rank(s)
  {
    forall t :: t in g && t.s == s && t.o.BNode? ==> '/' in Text(t.p) && NamedEdges(g, t.o, rank)
  }

  /** What `map_node(s, sk)` adds for one triple `t` of `s`. */
  ghost function EdgeImage(g: Graph, t: Triple, sk: string, rank: Term -> nat, pick: Chooser): Graph
    requires BNodeAcyclic(g, rank) && t in g
    decreases rank(t.s), 0
  {
    if !t.o.BNode? then {Triple(Uri(sk), t.p, t.o)}
    else {Triple(Uri(sk), t.p, Uri(ChildName(g, sk, t, pick)))} + MapNodeTriples(g, t.o, ChildName(g, sk, t, pick), rank, pick)
  }

  /** What `map_node(s, sk)` adds: the images of all triples of `s`. */
  ghost function MapNodeTriples(g: Graph, s: Term, sk: string, rank: Term -> nat, pick: Chooser): Graph
    requires BNodeAcyclic(g, rank)
    decreases rank(s), 1
  {
    set t, u | t in g && t.s == s && u in EdgeImage(g, t, sk, rank, pick) :: u
  }

  /** The images of the triples `ts`. */
  ghost function ImagesOf(g: Graph, ts: set<Triple>, sk: string, rank: Term -> nat, pick: Chooser): Graph
    requires BNodeAcyclic(g, rank) && ts <= g
  {
    set t, u | t in ts && u in EdgeImage(g, t, sk, rank, pick) :: u
  }

  lemma ImagesOfStep(g: Graph, ts: set<Triple>, t: Triple, sk: string, rank: Term -> nat, pick: Chooser)
    requires BNodeAcyclic(g, rank) && ts <= g && t in g
    ensures ImagesOf(g, ts + {t}, sk, rank, pick) == ImagesOf(g, ts, sk, rank, pick) + EdgeImage(g, t, sk, rank, pick)
  {
  }

  lemma ImagesOfAll(g: Graph, s: Term, done: set<Triple>, sk: string, rank: Term -> nat, pick: Chooser)
    requires BNodeAcyclic(g, rank) && done == Outgoing(g, s)
    ensures ImagesOf(g, done, sk, rank, pick) == MapNodeTriples(g, s, sk, rank, pick)
  {
  }

  /** One triple's part of `NamedEdges`. */
  ghost predicate EdgeNamed(g: Graph, t: Triple, rank: Term -> nat)
    requires BNodeAcyclic(g, rank) && t in g
  {
    t.o.BNode? ==> '/' in Text(t.p) && NamedEdges(g, t.o, rank)
  }

  /**
   * `map_node(s, sk, gin, gout)`: every triple of `s` is copied with `sk` as its subject; a
   * blank object is replaced by its derived name and mapped in turn. The IndexError of a
   * predicate without '/' stops the walk, with part of the output written.
   */
  method MapNode(s: Term, sk: string, gin: Graph, gout: GraphStore, ghost rank: Term -> nat, pick: Chooser)
    returns (err: Option<PyError>)
    requires BNodeAcyclic(gin, rank)
    modifies gout
    ensures err.None? <==> NamedEdges(gin, s, rank)
    ensures err.Some? ==> err.value == IndexError
    ensures err.None? ==> gout.triples == old(gout.triples) + MapNodeTriples(gin, s, sk, rank, pick)
    decreases rank(s)
  {
    ghost var start := gout.triples;
    var out := Outgoing(gin, s);
    ghost var done: set<Triple> := {};
    while out != {}
      invariant out + done == Outgoing(gin, s) && out !! done
      invariant gout.triples == start + ImagesOf(gin, done, sk, rank, pick)
      invariant forall t :: t in done ==> EdgeNamed(gin, t, rank)
      decreases out
    {
      var t :| t in out;
      ImagesOfStep(gin, done, t, sk, rank, pick);
      if !t.o.BNode? {
        gout.Add(Triple(Uri(sk), t.p, t.o));
      } else {
        var skO := SubjPredIdxToUri(sk, Text(t.p), IndexText(gin, t.o, pick));
        if skO.Err? {
          return Some(skO.error);
        }
        gout.Add(Triple(Uri(sk), t.p, skO.value));
        err := MapNode(t.o, skO.value.iri, gin, gout, rank, pick);
        if err.Some? {
          return err;
        }
      }
      out := out - {t};
      done := done + {t};
    }
    ImagesOfAll(gin, s, done, sk, rank, pick);
    err := None;
  }

  /**
   * The subjects of the "unreferenced blank node" branch of `skolemize`. The source's test
   * takes the length of a one-element list holding a generator, which is never 0, so the set is
   * always empty and the branch never runs.
   */
  function AnonSubjects(g: Graph): (r: set<Term>)
    ensures r == {}
  {
    set s | s in AllSubjects(g) && s.BNode? && |[Outgoing(g, s)]| == 0
  }

  function UriSubjects(g: Graph): (r: set<Term>)
    ensures forall s :: s in r <==> s.Uri? && exists t :: t in g && t.s == s
  {
    set s | s in AllSubjects(g) && s.Uri?
  }

  /** The maps of the URI subjects `ss`, each onto itself. */
  ghost function MapsOf(g: Graph, ss: set<Term>, rank: Term -> nat, pick: Chooser): Graph
    requires BNodeAcyclic(g, rank) && forall s :: s in ss ==> s.Uri?
  {
    set s, u | s in ss && u in MapNodeTriples(g, s, s.iri, rank, pick) :: u
  }

  /** The skolemized graph: the maps of all URI subjects. */
  ghost function SkolemTriples(g: Graph, rank: Term -> nat, pick: Chooser): Graph
    requires BNodeAcyclic(g, rank)
  {
    MapsOf(g, UriSubjects(g), rank, pick)
  }

  /** What `skolemize` gives: the skolemized graph, or IndexError. */
  ghost function SkolemResult(g: Graph, rank: Term -> nat, pick: Chooser): Result<Graph, PyError>
    requires BNodeAcyclic(g, rank)
  {
    if forall s :: s in UriSubjects(g) ==> NamedEdges(g, s, rank) then Ok(SkolemTriples(g, rank, pick))
    else Err(IndexError)
  }

  /** `skolemize`: map every URI subject onto itself into a fresh graph. */
  method Skolemize(gin: Graph, ghost rank: Term -> nat, pick: Chooser) returns (r: Result<Graph, PyError>)
    requires BNodeAcyclic(gin, rank)
    ensures r == SkolemResult(gin, rank, pick)
  {
    var gout := new GraphStore();
    assert AnonSubjects(gin) == {};
    var subjects := UriSubjects(gin);
    ghost var done: set<Term> := {};
    while subjects != {}
      invariant subjects + done == UriSubjects(gin) && subjects !! done
      invariant gout.triples == MapsOf(gin, done, rank, pick)
      invariant forall s :: s in done ==> NamedEdges(gin, s, rank)
      decreases subjects
    {
      var subj :| subj in subjects;
      var err := MapNode(subj, subj.iri, gin, gout, rank, pick);
      if err.Some? {
        assert subj in UriSubjects(gin) && !NamedEdges(gin, subj, rank);
        assert SkolemResult(gin, rank, pick) == Err(IndexError);
        return Err(err.value);
      }
      subjects := subjects - {subj};
      done := done + {subj};
    }
    assert done == UriSubjects(gin);
    assert forall s :: s in UriSubjects(gin) ==> NamedEdges(gin, s, rank);
    r := Ok(gout.triples);
  }

  /** No blank node is the subject or object of a mapped triple. */
  lemma {:induction false} MapNodeNoBNodes(g: Graph, s: Term, sk: string, rank: Term -> nat, pick: Chooser)
    requires BNodeAcyclic(g, rank)
    ensures forall u :: u in MapNodeTriples(g, s, sk, rank, pick) ==> u.s.Uri? && !u.o.BNode?
    decreases rank(s)
  {
    forall t | t in g && t.s == s && t.o.BNode?
      ensures forall u :: u in MapNodeTriples(g, t.o, ChildName(g, sk, t, pick), rank, pick) ==> u.s.Uri? && !u.o.BNode?
    {
      MapNodeNoBNodes(g, t.o, ChildName(g, sk, t, pick), rank, pick);
    }
  }

  /** The skolemized graph holds no blank node as subject or object. */
  lemma SkolemizedHasNoBNodes(g: Graph, rank: Term -> nat, pick: Chooser)
    requires BNodeAcyclic(g, rank)
    ensures forall u :: u in SkolemTriples(g, rank, pick) ==> u.s.Uri? && !u.o.BNode?
  {
    forall s | s in UriSubjects(g)
      ensures forall u :: u in MapNodeTriples(g, s, s.iri, rank, pick) ==> u.s.Uri? && !u.o.BNode?
    {
      MapNodeNoBNodes(g, s, s.iri, rank, pick);
    }
  }

  /** A triple from a URI subject to a term that is not a blank node is kept as it is. */
  lemma SkolemizedKeepsUriTriples(g: Graph, t: Triple, rank: Term -> nat, pick: Chooser)
    requires BNodeAcyclic(g, rank)
    requires t in g && t.s.Uri? && !t.o.BNode?
    ensures t in SkolemTriples(g, rank, pick)
  {
    assert t.s in UriSubjects(g);
    assert EdgeImage(g, t, t.s.iri, rank, pick) == {t};
    assert t in MapNodeTriples(g, t.s, t.s.iri, rank, pick);
  }

  /** The mapping does not depend on the rank that shows it is finite. */
  lemma {:induction false} MapNodeRankFree(g: Graph, s: Term, sk: string, r1: Term -> nat, r2: Term -> nat, pick: Chooser)
    requires BNodeAcyclic(g, r1) && BNodeAcyclic(g, r2)
    ensures MapNodeTriples(g, s, sk, r1, pick) == MapNodeTriples(g, s, sk, r2, pick)
    ensures NamedEdges(g, s, r1) == NamedEdges(g, s, r2)
    decreases r1(s)
  {
    forall t | t in g && t.s == s
      ensures EdgeImage(g, t, sk, r1, pick) == EdgeImage(g, t, sk, r2, pick)
      ensures t.o.BNode? ==> NamedEdges(g, t.o, r1) == NamedEdges(g, t.o, r2)
    {
      if t.o.BNode? {
        MapNodeRankFree(g, t.o, ChildName(g, sk, t, pick), r1, r2, pick);
        MapNodeRankFree(g, t.o, sk, r1, r2, pick);
      }
    }
  }

  lemma SkolemRankFree(g: Graph, r1: Term -> nat, r2: Term -> nat, pick: Chooser)
    requires BNodeAcyclic(g, r1) && BNodeAcyclic(g, r2)
    ensures SkolemResult(g, r1, pick) == SkolemResult(g, r2, pick)
  {
    forall s | s in UriSubjects(g)
      ensures MapNodeTriples(g, s, s.iri, r1, pick) == MapNodeTriples(g, s, s.iri, r2, pick)
      ensures NamedEdges(g, s, r1) == NamedEdges(g, s, r2)
    {
      MapNodeRankFree(g, s, s.iri, r1, r2, pick);
    }
    assert SkolemTriples(g, r1, pick) == SkolemTriples(g, r2, pick);
  }

  /** Fewer triples keep every edge into a blank node named. */
  lemma {:induction false} NamedEdgesSubset(g: Graph, h: Graph, s: Term, rank: Term -> nat)
    requires BNodeAcyclic(g, rank) && h <= g && NamedEdges(g, s, rank)
    ensures BNodeAcyclic(h, rank) && NamedEdges(h, s, rank)
    decreases rank(s)
  {
    AcyclicSubset(g, h, rank);
    forall t | t in h && t.s == s && t.o.BNode?
      ensures '/' in Text(t.p) && NamedEdges(h, t.o, rank)
    {
      NamedEdgesSubset(g, h, t.o, rank);
    }
  }

  /** A part of a graph that `skolemize` accepts is accepted too. */
  lemma SkolemSubset(g: Graph, h: Graph, rank: Term -> nat, pick: Chooser)
    requires BNodeAcyclic(g, rank) && h <= g && SkolemResult(g, rank, pick).Ok?
    ensures BNodeAcyclic(h, rank) && SkolemResult(h, rank, pick).Ok?
  {
    AcyclicSubset(g, h, rank);
    forall s | s in UriSubjects(h)
      ensures NamedEdges(h, s, rank)
    {
      assert s in UriSubjects(g);
      NamedEdgesSubset(g, h, s, rank);
    }
  }

  // ---- rdf_compare ----

  /** `ignore_type_arcs`: drop the `rdf:type` arcs from blank nodes to URIs, and nothing else. */
  function IgnoreTypeArcs(h: Graph): (r: Graph)
    ensures r <= h
    ensures forall t :: t in h - r <==> t in h && t.p == RDF_TYPE && t.s.BNode? && t.o.Uri?
  {
    set t | t in h && !(t.p == RDF_TYPE && t.s.BNode? && t.o.Uri?)
  }

  /** `ignore_owl_version`: drop one `owl:versionIRI` triple of `subj`, and nothing else. */
  function IgnoreOwlVersion(h: Graph, subj: Term, pick: Chooser): (r: Graph)
    ensures r <= h
    ensures forall t :: t in h - r ==> t.s == subj && t.p == OWL_VERSION_IRI
    ensures FairChooser(pick) && (exists v :: Triple(subj, OWL_VERSION_IRI, v) in h) ==> |h - r| == 1
    ensures (forall v :: Triple(subj, OWL_VERSION_IRI, v) !in h) ==> r == h
  {
    match Value(h, subj, OWL_VERSION_IRI, pick)
    case None => h
    case Some(v) =>
      assert FairChooser(pick) ==> h - (h - {Triple(subj, OWL_VERSION_IRI, v)}) == {Triple(subj, OWL_VERSION_IRI, v)};
      h - {Triple(subj, OWL_VERSION_IRI, v)}
  }

  /** `graph_for_subject`: the closure of `subj`, with the requested triples ignored. */
  ghost function SubjectGraph(g: Graph, subj: Term, ignoreOwlVersion: bool, ignoreTypeArcs: bool,
                              rank: Term -> nat, pick: Chooser): Graph
    requires BNodeAcyclic(g, rank)
  {
    var c := Closure(g, subj, rank);
    var c' := if ignoreTypeArcs then IgnoreTypeArcs(c) else c;
    if ignoreOwlVersion then IgnoreOwlVersion(c', subj, pick) else c'
  }

  lemma SubjectGraphIn(g: Graph, subj: Term, ignoreOwlVersion: bool, ignoreTypeArcs: bool, rank: Term -> nat, pick: Chooser)
    requires BNodeAcyclic(g, rank)
    ensures SubjectGraph(g, subj, ignoreOwlVersion, ignoreTypeArcs, rank, pick) <= g
  {
    ClosureProperties(g, subj, rank);
  }

  method GraphForSubject(g: Graph, subj: Term, ignoreOwlVersion: bool, ignoreTypeArcs: bool,
                         ghost rank: Term -> nat, pick: Chooser) returns (h: Graph)
    requires BNodeAcyclic(g, rank)
    ensures h == SubjectGraph(g, subj, ignoreOwlVersion, ignoreTypeArcs, rank, pick)
  {
    var target := new GraphStore();
    CompleteDefinition(subj, g, target, rank);
    h := target.triples;
    assert h == Closure(g, subj, rank);
    if ignoreTypeArcs {
      h := IgnoreTypeArcs(h);
    }
    if ignoreOwlVersion {
      h := IgnoreOwlVersion(h, subj, pick);
    }
  }

  /** `compare_filter`: given (in_both, in_first, in_second), the adjusted (in_first, in_second). */
  type Filter = (Graph, Graph, Graph) -> (Graph, Graph)

  /**
   * The report of `rdf_compare`, one section per reported subject. The text of the report is
   * empty exactly when there is no section.
   */
  datatype Section =
    | OnlyInFirst(s: Term, def: Graph)
    | OnlyInSecond(s: Term, def: Graph)
    | Difference(s: Term, first: Graph, second: Graph)

  /** The difference of `subj`'s skolemized graphs, after the filter. */
  ghost function SubjectDiff(g1: Graph, g2: Graph, subj: Term, ignoreOwlVersion: bool, ignoreTypeArcs: bool,
                             filter: Option<Filter>, rank1: Term -> nat, rank2: Term -> nat, pick: Chooser)
    : Result<(Graph, Graph), PyError>
    requires BNodeAcyclic(g1, rank1) && BNodeAcyclic(g2, rank2)
  {
    var a := SubjectGraph(g1, subj, ignoreOwlVersion, ignoreTypeArcs, rank1, pick);
    var b := SubjectGraph(g2, subj, ignoreOwlVersion, ignoreTypeArcs, rank2, pick);
    SubjectGraphIn(g1, subj, ignoreOwlVersion, ignoreTypeArcs, rank1, pick);
    SubjectGraphIn(g2, subj, ignoreOwlVersion, ignoreTypeArcs, rank2, pick);
    match SkolemResult(a, rank1, pick)
    case Err(e) => Err(e)
    case Ok(ka) =>
      match SkolemResult(b, rank2, pick)
      case Err(e) => Err(e)
      case Ok(kb) =>
        if filter.Some? then Ok(filter.value(ka * kb, ka - kb, kb - ka)) else Ok((ka - kb, kb - ka))
  }

  /** When `skolemize` accepts both graphs, the difference of every subject is computed. */
  lemma SubjectDiffOk(g1: Graph, g2: Graph, subj: Term, ignoreOwlVersion: bool, ignoreTypeArcs: bool,
                      filter: Option<Filter>, rank1: Term -> nat, rank2: Term -> nat, pick: Chooser)
    requires BNodeAcyclic(g1, rank1) && BNodeAcyclic(g2, rank2)
    requires SkolemResult(g1, rank1, pick).Ok? && SkolemResult(g2, rank2, pick).Ok?
    ensures SubjectDiff(g1, g2, subj, ignoreOwlVersion, ignoreTypeArcs, filter, rank1, rank2, pick).Ok?
  {
    SubjectGraphIn(g1, subj, ignoreOwlVersion, ignoreTypeArcs, rank1, pick);
    SubjectGraphIn(g2, subj, ignoreOwlVersion, ignoreTypeArcs, rank2, pick);
    SkolemSubset(g1, SubjectGraph(g1, subj, ignoreOwlVersion, ignoreTypeArcs, rank1, pick), rank1, pick);
    SkolemSubset(g2, SubjectGraph(g2, subj, ignoreOwlVersion, ignoreTypeArcs, rank2, pick), rank2, pick);
  }

  /** One subject's difference: the two skolemized graphs, set difference both ways, then the filter. */
  method DiffSubject(g1: Graph, g2: Graph, subj: Term, ignoreOwlVersion: bool, ignoreTypeArcs: bool,
                     filter: Option<Filter>, ghost rank1: Term -> nat, ghost rank2: Term -> nat, pick: Chooser)
    returns (r: Result<(Graph, Graph), PyError>)
    requires BNodeAcyclic(g1, rank1) && BNodeAcyclic(g2, rank2)
    ensures r == SubjectDiff(g1, g2, subj, ignoreOwlVersion, ignoreTypeArcs, filter, rank1, rank2, pick)
  {
    var a := GraphForSubject(g1, subj, ignoreOwlVersion, ignoreTypeArcs, rank1, pick);
    var b := GraphForSubject(g2, subj, ignoreOwlVersion, ignoreTypeArcs, rank2, pick);
    SubjectGraphIn(g1, subj, ignoreOwlVersion, ignoreTypeArcs, rank1, pick);
    SubjectGraphIn(g2, subj, ignoreOwlVersion, ignoreTypeArcs, rank2, pick);
    AcyclicSubset(g1, a, rank1);
    AcyclicSubset(g2, b, rank2);
    var ka := Skolemize(a, rank1, pick);
    if ka.Err? {
      return Err(ka.error);
    }
    var kb := Skolemize(b, rank2, pick);
    if kb.Err? {
      return Err(kb.error);
    }
    var inFirst := ka.value - kb.value;
    var inSecond := kb.value - ka.value;
    if filter.Some? {
      r := Ok(filter.value(ka.value * kb.value, inFirst, inSecond));
    } else {
      r := Ok((inFirst, inSecond));
    }
  }

  /** A graph compared with itself without filter shows no difference for any subject. */
  lemma SelfDiffEmpty(g: Graph, subj: Term, ignoreOwlVersion: bool, ignoreTypeArcs: bool,
                      rank1: Term -> nat, rank2: Term -> nat, pick: Chooser)
    requires BNodeAcyclic(g, rank1) && BNodeAcyclic(g, rank2)
    ensures var d := SubjectDiff(g, g, subj, ignoreOwlVersion, ignoreTypeArcs, None, rank1, rank2, pick);
      d.Ok? ==> d.value == ({}, {})
  {
    ClosureRankFree(g, subj, rank1, rank2);
    var a1 := SubjectGraph(g, subj, ignoreOwlVersion, ignoreTypeArcs, rank1, pick);
    var a2 := SubjectGraph(g, subj, ignoreOwlVersion, ignoreTypeArcs, rank2, pick);
    assert a1 == a2;
    SubjectGraphIn(g, subj, ignoreOwlVersion, ignoreTypeArcs, rank1, pick);
    AcyclicSubset(g, a1, rank1);
    AcyclicSubset(g, a1, rank2);
    SkolemRankFree(a1, rank1, rank2, pick);
    var k := SkolemResult(a1, rank1, pick);
    if k.Ok? {
      assert k.value - k.value == {};
    }
  }

  /** The sections of `secs` are about subjects of `done`, one section per subject. */
  ghost predicate Reported(secs: seq<Section>, done: set<Term>) {
    && (forall i :: 0 <= i < |secs| ==> secs[i].s in done)
    && (forall i, j :: 0 <= i < j < |secs| ==> secs[i].s != secs[j].s)
  }

  lemma ReportedStep(secs: seq<Section>, done: set<Term>, sec: Section)
    requires Reported(secs, done) && sec.s !in done
    ensures Reported(secs + [sec], done + {sec.s})
  {
  }

  /** Two sets split into the parts only in one, only in the other, and in both. */
  lemma Partition<T>(a: set<T>, b: set<T>)
    ensures (a - b) + (b - a) + a * b == a + b
    ensures (a - b) !! (b - a) && (a - b) !! a * b && (b - a) !! a * b
    ensures a == {} ==> a - b == {} && b - a == b && a * b == {}
  {
  }

  lemma CardAdd<T>(done: set<T>, s: T)
    requires s !in done
    ensures |done + {s}| == |done| + 1
  {
  }

  /** The section for a subject that only one graph has, with its definition in that graph `g`. */
  ghost function MissingSection(g: Graph, s: Term, first: bool, rank: Term -> nat): Section
    requires BNodeAcyclic(g, rank)
  {
    if first then OnlyInFirst(s, Closure(g, s, rank)) else OnlyInSecond(s, Closure(g, s, rank))
  }

  /** The section of one missing subject: a fresh graph filled with its definition. */
  method MissingDefinition(g: Graph, s: Term, first: bool, ghost rank: Term -> nat) returns (sec: Section)
    requires BNodeAcyclic(g, rank)
    ensures sec == MissingSection(g, s, first, rank)
  {
    var target := new GraphStore();
    CompleteDefinition(s, g, target, rank);
    assert target.triples == Closure(g, s, rank);
    sec := if first then OnlyInFirst(s, target.triples) else OnlyInSecond(s, target.triples);
  }

  /** Step 1 of `rdf_compare`: a section with the definition in `g` of every subject of `only`. */
  method ReportMissing(g: Graph, only: set<Term>, first: bool, ghost rank: Term -> nat) returns (secs: seq<Section>)
    requires BNodeAcyclic(g, rank)
    ensures Reported(secs, only) && |secs| == |only|
    ensures forall s :: s in only ==> MissingSection(g, s, first, rank) in secs
    ensures forall sec :: sec in secs ==> sec == MissingSection(g, sec.s, first, rank)
  {
    secs := [];
    var rest := only;
    ghost var done: set<Term> := {};
    while rest != {}
      invariant rest + done == only && rest !! done
      invariant Reported(secs, done) && |secs| == |done|
      invariant forall s :: s in done ==> MissingSection(g, s, first, rank) in secs
      invariant forall sec :: sec in secs ==> sec == MissingSection(g, sec.s, first, rank)
      decreases rest
    {
      var s :| s in rest;
      var sec := MissingDefinition(g, s, first, rank);
      ReportedStep(secs, done, sec);
      CardAdd(done, s);
      secs := secs + [sec];
      rest := rest - {s};
      done := done + {s};
    }
  }

  /** A section for a common subject, with its non-empty difference. */
  ghost predicate DiffSection(g1: Graph, g2: Graph, sec: Section, ignoreOwlVersion: bool, ignoreTypeArcs: bool,
                              filter: Option<Filter>, rank1: Term -> nat, rank2: Term -> nat, pick: Chooser)
    requires BNodeAcyclic(g1, rank1) && BNodeAcyclic(g2, rank2)
  {
    && sec.Difference?
    && SubjectDiff(g1, g2, sec.s, ignoreOwlVersion, ignoreTypeArcs, filter, rank1, rank2, pick) == Ok((sec.first, sec.second))
    && (sec.first != {} || sec.second != {})
  }

  /** The difference of `s` is computed, and reported when it is not empty. */
  ghost predicate DiffCovered(g1: Graph, g2: Graph, s: Term, secs: seq<Section>, ignoreOwlVersion: bool, ignoreTypeArcs: bool,
                              filter: Option<Filter>, rank1: Term -> nat, rank2: Term -> nat, pick: Chooser)
    requires BNodeAcyclic(g1, rank1) && BNodeAcyclic(g2, rank2)
  {
    var d := SubjectDiff(g1, g2, s, ignoreOwlVersion, ignoreTypeArcs, filter, rank1, rank2, pick);
    d.Ok? && (d.value != ({}, {}) ==> Difference(s, d.value.0, d.value.1) in secs)
  }

  lemma DiffCoveredMono(g1: Graph, g2: Graph, s: Term, secs: seq<Section>, secs': seq<Section>, ignoreOwlVersion: bool,
                        ignoreTypeArcs: bool, filter: Option<Filter>, rank1: Term -> nat, rank2: Term -> nat, pick: Chooser)
    requires BNodeAcyclic(g1, rank1) && BNodeAcyclic(g2, rank2)
    requires DiffCovered(g1, g2, s, secs, ignoreOwlVersion, ignoreTypeArcs, filter, rank1, rank2, pick)
    requires forall sec :: sec in secs ==> sec in secs'
    ensures DiffCovered(g1, g2, s, secs', ignoreOwlVersion, ignoreTypeArcs, filter, rank1, rank2, pick)
  {
  }

  lemma DiffCoveredNew(g1: Graph, g2: Graph, s: Term, secs: seq<Section>, inFirst: Graph, inSecond: Graph,
                       ignoreOwlVersion: bool, ignoreTypeArcs: bool, filter: Option<Filter>,
                       rank1: Term -> nat, rank2: Term -> nat, pick: Chooser)
    requires BNodeAcyclic(g1, rank1) && BNodeAcyclic(g2, rank2)
    requires SubjectDiff(g1, g2, s, ignoreOwlVersion, ignoreTypeArcs, filter, rank1, rank2, pick) == Ok((inFirst, inSecond))
    requires inFirst != {} || inSecond != {} ==> Difference(s, inFirst, inSecond) in secs
    ensures DiffCovered(g1, g2, s, secs, ignoreOwlVersion, ignoreTypeArcs, filter, rank1, rank2, pick)
  {
  }

  /** The sections `secs` report the differences of the subjects `done`. */
  ghost predicate DiffsReported(g1: Graph, g2: Graph, secs: seq<Section>, done: set<Term>, ignoreOwlVersion: bool,
                                ignoreTypeArcs: bool, filter: Option<Filter>, rank1: Term -> nat, rank2: Term -> nat,
                                pick: Chooser)
    requires BNodeAcyclic(g1, rank1) && BNodeAcyclic(g2, rank2)
  {
    && Reported(secs, done) && |secs| <= |done|
    && (forall sec :: sec in secs ==> DiffSection(g1, g2, sec, ignoreOwlVersion, ignoreTypeArcs, filter, rank1, rank2, pick))
    && (forall s :: s in done ==> DiffCovered(g1, g2, s, secs, ignoreOwlVersion, ignoreTypeArcs, filter, rank1, rank2, pick))
  }

  /** One iteration of step 2: the difference of `s`, appended when it is not empty. */
  method ReportDifference(g1: Graph, g2: Graph, s: Term, secs: seq<Section>, ghost done: set<Term>, ignoreOwlVersion: bool,
                          ignoreTypeArcs: bool, filter: Option<Filter>,
                          ghost rank1: Term -> nat, ghost rank2: Term -> nat, pick: Chooser)
    returns (r: Result<seq<Section>, PyError>)
    requires BNodeAcyclic(g1, rank1) && BNodeAcyclic(g2, rank2)
    requires s !in done
    requires DiffsReported(g1, g2, secs, done, ignoreOwlVersion, ignoreTypeArcs, filter, rank1, rank2, pick)
    ensures r.Ok? ==> DiffsReported(g1, g2, r.value, done + {s}, ignoreOwlVersion, ignoreTypeArcs, filter, rank1, rank2, pick)
    ensures r.Err? ==> SubjectDiff(g1, g2, s, ignoreOwlVersion, ignoreTypeArcs, filter, rank1, rank2, pick) == Err(r.error)
  {
    var d := DiffSubject(g1, g2, s, ignoreOwlVersion, ignoreTypeArcs, filter, rank1, rank2, pick);
    if d.Err? {
      return Err(d.error);
    }
    var (inFirst, inSecond) := d.value;
    var next := if inFirst != {} || inSecond != {} then secs + [Difference(s, inFirst, inSecond)] else secs;
    DiffsReportedStep(g1, g2, secs, done, s, inFirst, inSecond, next, ignoreOwlVersion, ignoreTypeArcs, filter,
                      rank1, rank2, pick);
    r := Ok(next);
  }

  lemma DiffsReportedStep(g1: Graph, g2: Graph, secs: seq<Section>, done: set<Term>, s: Term, inFirst: Graph,
                          inSecond: Graph, next: seq<Section>, ignoreOwlVersion: bool, ignoreTypeArcs: bool,
                          filter: Option<Filter>, rank1: Term -> nat, rank2: Term -> nat, pick: Chooser)
    requires BNodeAcyclic(g1, rank1) && BNodeAcyclic(g2, rank2)
    requires s !in done
    requires DiffsReported(g1, g2, secs, done, ignoreOwlVersion, ignoreTypeArcs, filter, rank1, rank2, pick)
    requires SubjectDiff(g1, g2, s, ignoreOwlVersion, ignoreTypeArcs, filter, rank1, rank2, pick) == Ok((inFirst, inSecond))
    requires next == if inFirst != {} || inSecond != {} then secs + [Difference(s, inFirst, inSecond)] else secs
    ensures DiffsReported(g1, g2, next, done + {s}, ignoreOwlVersion, ignoreTypeArcs, filter, rank1, rank2, pick)
  {
    ReportedNext(secs, done, s, inFirst, inSecond, next);
    SectionsNext(g1, g2, secs, s, inFirst, inSecond, next, ignoreOwlVersion, ignoreTypeArcs, filter, rank1, rank2, pick);
    CoveredNext(g1, g2, secs, done, s, inFirst, inSecond, next, ignoreOwlVersion, ignoreTypeArcs, filter, rank1, rank2, pick);
  }

  lemma ReportedNext(secs: seq<Section>, done: set<Term>, s: Term, inFirst: Graph, inSecond: Graph, next: seq<Section>)
    requires s !in done && Reported(secs, done) && |secs| <= |done|
    requires next == if inFirst != {} || inSecond != {} then secs + [Difference(s, inFirst, inSecond)] else secs
    ensures Reported(next, done + {s}) && |next| <= |done + {s}|
  {
    CardAdd(done, s);
    if inFirst != {} || inSecond != {} {
      ReportedStep(secs, done, Difference(s, inFirst, inSecond));
    }
  }

  lemma SectionsNext(g1: Graph, g2: Graph, secs: seq<Section>, s: Term, inFirst: Graph, inSecond: Graph,
                     next: seq<Section>, ignoreOwlVersion: bool, ignoreTypeArcs: bool,
                     filter: Option<Filter>, rank1: Term -> nat, rank2: Term -> nat, pick: Chooser)
    requires BNodeAcyclic(g1, rank1) && BNodeAcyclic(g2, rank2)
    requires forall sec :: sec in secs ==> DiffSection(g1, g2, sec, ignoreOwlVersion, ignoreTypeArcs, filter, rank1, rank2, pick)
    requires SubjectDiff(g1, g2, s, ignoreOwlVersion, ignoreTypeArcs, filter, rank1, rank2, pick) == Ok((inFirst, inSecond))
    requires next == if inFirst != {} || inSecond != {} then secs + [Difference(s, inFirst, inSecond)] else secs
    ensures forall sec :: sec in next ==> DiffSection(g1, g2, sec, ignoreOwlVersion, ignoreTypeArcs, filter, rank1, rank2, pick)
  {
    if inFirst != {} || inSecond != {} {
      var d := Difference(s, inFirst, inSecond);
      assert DiffSection(g1, g2, d, ignoreOwlVersion, ignoreTypeArcs, filter, rank1, rank2, pick);
      forall x | x in next
        ensures DiffSection(g1, g2, x, ignoreOwlVersion, ignoreTypeArcs, filter, rank1, rank2, pick)
      {
        if x != d {
          assert x in secs;
        }
      }
    }
  }

  lemma CoveredNext(g1: Graph, g2: Graph, secs: seq<Section>, done: set<Term>, s: Term, inFirst: Graph,
                    inSecond: Graph, next: seq<Section>, ignoreOwlVersion: bool, ignoreTypeArcs: bool,
                    filter: Option<Filter>, rank1: Term -> nat, rank2: Term -> nat, pick: Chooser)
    requires BNodeAcyclic(g1, rank1) && BNodeAcyclic(g2, rank2)
    requires forall x :: x in done ==> DiffCovered(g1, g2, x, secs, ignoreOwlVersion, ignoreTypeArcs, filter, rank1, rank2, pick)
    requires SubjectDiff(g1, g2, s, ignoreOwlVersion, ignoreTypeArcs, filter, rank1, rank2, pick) == Ok((inFirst, inSecond))
    requires next == if inFirst != {} || inSecond != {} then secs + [Difference(s, inFirst, inSecond)] else secs
    ensures forall x :: x in done + {s} ==> DiffCovered(g1, g2, x, next, ignoreOwlVersion, ignoreTypeArcs, filter, rank1, rank2, pick)
  {
    DiffCoveredNew(g1, g2, s, next, inFirst, inSecond, ignoreOwlVersion, ignoreTypeArcs, filter, rank1, rank2, pick);
    forall x | x in done
      ensures DiffCovered(g1, g2, x, next, ignoreOwlVersion, ignoreTypeArcs, filter, rank1, rank2, pick)
    {
      DiffCoveredMono(g1, g2, x, secs, next, ignoreOwlVersion, ignoreTypeArcs, filter, rank1, rank2, pick);
    }
  }

  /** Step 2 of `rdf_compare`: a section for every common subject whose (filtered) difference is not empty. */
  method ReportDifferences(g1: Graph, g2: Graph, common: set<Term>, ignoreOwlVersion: bool, ignoreTypeArcs: bool,
                           filter: Option<Filter>, ghost rank1: Term -> nat, ghost rank2: Term -> nat, pick: Chooser)
    returns (r: Result<seq<Section>, PyError>)
    requires BNodeAcyclic(g1, rank1) && BNodeAcyclic(g2, rank2)
    ensures r.Ok? ==> Reported(r.value, common) && |r.value| <= |common|
    ensures r.Ok? ==> forall sec :: sec in r.value ==>
      DiffSection(g1, g2, sec, ignoreOwlVersion, ignoreTypeArcs, filter, rank1, rank2, pick)
    ensures r.Ok? ==> forall s :: s in common ==>
      DiffCovered(g1, g2, s, r.value, ignoreOwlVersion, ignoreTypeArcs, filter, rank1, rank2, pick)
    ensures r.Err? ==> exists s :: (s in common
      && SubjectDiff(g1, g2, s, ignoreOwlVersion, ignoreTypeArcs, filter, rank1, rank2, pick) == Err(r.error))
  {
    var secs: seq<Section> := [];
    var rest := common;
    ghost var done: set<Term> := {};
    while rest != {}
      invariant rest + done == common && rest !! done
      invariant DiffsReported(g1, g2, secs, done, ignoreOwlVersion, ignoreTypeArcs, filter, rank1, rank2, pick)
      decreases rest
    {
      var s :| s in rest;
      var step := ReportDifference(g1, g2, s, secs, done, ignoreOwlVersion, ignoreTypeArcs, filter, rank1, rank2, pick);
      if step.Err? {
        assert s in common;
        return Err(step.error);
      }
      secs := step.value;
      rest := rest - {s};
      done := done + {s};
    }
    assert done == common;
    r := Ok(secs);
  }

  /** The three parts of a report, concatenated, still have one section per subject. */
  lemma ConcatReported(m1: seq<Section>, m2: seq<Section>, d: seq<Section>, s1: set<Term>, s2: set<Term>, s3: set<Term>)
    requires Reported(m1, s1) && Reported(m2, s2) && Reported(d, s3)
    requires s1 !! s2 && s1 !! s3 && s2 !! s3
    ensures Reported(m1 + m2 + d, s1 + s2 + s3)
    ensures forall x :: x in m1 + m2 + d <==> x in m1 || x in m2 || x in d
  {
    var all := m1 + m2 + d;
    forall i, j | 0 <= i < j < |all|
      ensures all[i].s != all[j].s
    {
      if i < |m1| {
        if j >= |m1| { assert all[i].s in s1; }
      } else if i < |m1| + |m2| {
        assert all[i] == m2[i - |m1|];
        if j >= |m1| + |m2| { assert all[j] == d[j - |m1| - |m2|]; }
        else { assert all[j] == m2[j - |m1|]; }
      } else {
        assert all[i] == d[i - |m1| - |m2|];
        assert all[j] == d[j - |m1| - |m2|];
      }
    }
  }

  /** `sec` is a section that the comparison of `subjs1` with `subjs2` may contain. */
  ghost predicate SectionFor(g1: Graph, g2: Graph, subjs1: set<Term>, subjs2: set<Term>, sec: Section, ignoreOwlVersion: bool,
                             ignoreTypeArcs: bool, filter: Option<Filter>, rank1: Term -> nat, rank2: Term -> nat,
                             pick: Chooser)
    requires BNodeAcyclic(g1, rank1) && BNodeAcyclic(g2, rank2)
  {
    || (sec.s in subjs1 - subjs2 && sec == MissingSection(g1, sec.s, true, rank1))
    || (sec.s in subjs2 - subjs1 && sec == MissingSection(g2, sec.s, false, rank2))
    || (sec.s in subjs1 * subjs2 && DiffSection(g1, g2, sec, ignoreOwlVersion, ignoreTypeArcs, filter, rank1, rank2, pick))
  }

  /**
   * The comparison for given primary subject sets: one section per subject of one set only,
   * then one per common subject whose difference is not empty.
   */
  method CompareSubjects(g1: Graph, g2: Graph, subjs1: set<Term>, subjs2: set<Term>, ignoreOwlVersion: bool,
                         ignoreTypeArcs: bool, filter: Option<Filter>,
                         ghost rank1: Term -> nat, ghost rank2: Term -> nat, pick: Chooser)
    returns (r: Result<seq<Section>, PyError>)
    requires BNodeAcyclic(g1, rank1) && BNodeAcyclic(g2, rank2)
    ensures subjs1 * subjs2 == {} ==> r.Ok?
    ensures subjs1 == {} ==> r.Ok? && |r.value| == |subjs2|
    ensures r.Ok? ==> Reported(r.value, subjs1 + subjs2)
    ensures r.Ok? ==> forall s :: s in subjs1 - subjs2 ==> MissingSection(g1, s, true, rank1) in r.value
    ensures r.Ok? ==> forall s :: s in subjs2 - subjs1 ==> MissingSection(g2, s, false, rank2) in r.value
    ensures r.Ok? ==> forall s :: s in subjs1 * subjs2 ==>
      DiffCovered(g1, g2, s, r.value, ignoreOwlVersion, ignoreTypeArcs, filter, rank1, rank2, pick)
    ensures r.Ok? ==> forall sec :: sec in r.value ==>
      SectionFor(g1, g2, subjs1, subjs2, sec, ignoreOwlVersion, ignoreTypeArcs, filter, rank1, rank2, pick)
    ensures r.Err? <==> exists s ::
      s in subjs1 * subjs2 && SubjectDiff(g1, g2, s, ignoreOwlVersion, ignoreTypeArcs, filter, rank1, rank2, pick).Err?
    ensures r.Err? ==> exists s ::
      s in subjs1 * subjs2 && SubjectDiff(g1, g2, s, ignoreOwlVersion, ignoreTypeArcs, filter, rank1, rank2, pick) == Err(r.error)
  {
    var missing1 := ReportMissing(g1, subjs1 - subjs2, true, rank1);
    var missing2 := ReportMissing(g2, subjs2 - subjs1, false, rank2);
    var diffs := ReportDifferences(g1, g2, subjs1 * subjs2, ignoreOwlVersion, ignoreTypeArcs, filter, rank1, rank2, pick);
    if diffs.Err? {
      return Err(diffs.error);
    }
    var all := missing1 + missing2 + diffs.value;
    Partition(subjs1, subjs2);
    ConcatReported(missing1, missing2, diffs.value, subjs1 - subjs2, subjs2 - subjs1, subjs1 * subjs2);
    forall sec | sec in all
      ensures SectionFor(g1, g2, subjs1, subjs2, sec, ignoreOwlVersion, ignoreTypeArcs, filter, rank1, rank2, pick)
    {
      if sec in missing1 {
        var i :| 0 <= i < |missing1| && missing1[i] == sec;
      } else if sec in missing2 {
        var i :| 0 <= i < |missing2| && missing2[i] == sec;
      } else {
        var i :| 0 <= i < |diffs.value| && diffs.value[i] == sec;
      }
    }
    r := Ok(all);
  }

  /** A graph compared with itself: accepted under one rank, accepted under the other. */
  lemma SkolemAccepted(g1: Graph, g2: Graph, rank1: Term -> nat, rank2: Term -> nat, pick: Chooser)
    requires BNodeAcyclic(g1, rank1) && BNodeAcyclic(g2, rank2)
    ensures g1 == g2 ==> SkolemResult(g1, rank1, pick) == SkolemResult(g2, rank2, pick)
  {
    if g1 == g2 {
      SkolemRankFree(g1, rank1, rank2, pick);
    }
  }

  /**
   * `primary_subjects(g)` as written: the URI subjects of the FIRST graph whatever `g` is, plus
   * the (always empty) unreferenced blank subjects of `g`.
   */
  function PrimarySubjects(g1: Graph, g: Graph): (r: set<Term>)
    ensures r == UriSubjects(g1)
  {
    UriSubjects(g1) + AnonSubjects(g)
  }

  /** `primary_subjects(g)` as evidently intended: the URI subjects of `g` itself. */
  function PrimarySubjectsCorrected(g: Graph): (r: set<Term>)
    ensures r == UriSubjects(g)
  {
    UriSubjects(g) + AnonSubjects(g)
  }

  /**
   * `rdf_compare(g1, g2)` as written. Both subject sets come from `g1`, so no subject is ever
   * reported as missing, and a subject that only `g2` has is never looked at.
   */
  method Compare(g1: Graph, g2: Graph, ignoreOwlVersion: bool, ignoreTypeArcs: bool, filter: Option<Filter>,
                 ghost rank1: Term -> nat, ghost rank2: Term -> nat, pick: Chooser)
    returns (r: Result<seq<Section>, PyError>)
    requires BNodeAcyclic(g1, rank1) && BNodeAcyclic(g2, rank2)
    ensures UriSubjects(g1) == {} ==> r == Ok([])
    ensures r.Ok? ==> Reported(r.value, UriSubjects(g1))
    ensures r.Ok? ==> forall sec :: sec in r.value ==>
      DiffSection(g1, g2, sec, ignoreOwlVersion, ignoreTypeArcs, filter, rank1, rank2, pick)
    ensures r.Ok? ==> forall s :: s in UriSubjects(g1) ==>
      DiffCovered(g1, g2, s, r.value, ignoreOwlVersion, ignoreTypeArcs, filter, rank1, rank2, pick)
    ensures g1 == g2 && filter.None? && r.Ok? ==> r.value == []
    ensures r.Err? <==> exists s ::
      s in UriSubjects(g1) && SubjectDiff(g1, g2, s, ignoreOwlVersion, ignoreTypeArcs, filter, rank1, rank2, pick).Err?
    ensures SkolemResult(g1, rank1, pick).Ok? && SkolemResult(g2, rank2, pick).Ok? ==> r.Ok?
    ensures g1 == g2 && filter.None? && SkolemResult(g1, rank1, pick).Ok? ==> r == Ok([])
  {
    var subjs1 := PrimarySubjects(g1, g1);
    var subjs2 := PrimarySubjects(g1, g2);
    r := CompareSubjects(g1, g2, subjs1, subjs2, ignoreOwlVersion, ignoreTypeArcs, filter, rank1, rank2, pick);
    SkolemAccepted(g1, g2, rank1, rank2, pick);
    if r.Err? && SkolemResult(g1, rank1, pick).Ok? && SkolemResult(g2, rank2, pick).Ok? {
      var s :| s in subjs1 * subjs2 && SubjectDiff(g1, g2, s, ignoreOwlVersion, ignoreTypeArcs, filter, rank1, rank2, pick).Err?;
      SubjectDiffOk(g1, g2, s, ignoreOwlVersion, ignoreTypeArcs, filter, rank1, rank2, pick);
    }
    if g1 == g2 && filter.None? && r.Ok? && r.value != [] {
      var sec := r.value[0];
      assert sec in r.value;
      SelfDiffEmpty(g1, sec.s, ignoreOwlVersion, ignoreTypeArcs, rank1, rank2, pick);
    }
  }

  /** `rdf_compare` with each graph's own subjects: subjects of one graph only are reported. */
  method CompareCorrected(g1: Graph, g2: Graph, ignoreOwlVersion: bool, ignoreTypeArcs: bool, filter: Option<Filter>,
                          ghost rank1: Term -> nat, ghost rank2: Term -> nat, pick: Chooser)
    returns (r: Result<seq<Section>, PyError>)
    requires BNodeAcyclic(g1, rank1) && BNodeAcyclic(g2, rank2)
    ensures r.Ok? ==> Reported(r.value, UriSubjects(g1) + UriSubjects(g2))
    ensures r.Ok? ==> forall s :: s in UriSubjects(g1) - UriSubjects(g2) ==> MissingSection(g1, s, true, rank1) in r.value
    ensures r.Ok? ==> forall s :: s in UriSubjects(g2) - UriSubjects(g1) ==> MissingSection(g2, s, false, rank2) in r.value
    ensures r.Ok? ==> forall s :: s in UriSubjects(g1) * UriSubjects(g2) ==>
      DiffCovered(g1, g2, s, r.value, ignoreOwlVersion, ignoreTypeArcs, filter, rank1, rank2, pick)
    ensures UriSubjects(g1) == {} ==> r.Ok? && |r.value| == |UriSubjects(g2)|
    ensures g1 == g2 && filter.None? && r.Ok? ==> r.value == []
    ensures r.Err? <==> exists s ::
      s in UriSubjects(g1) * UriSubjects(g2) && SubjectDiff(g1, g2, s, ignoreOwlVersion, ignoreTypeArcs, filter, rank1, rank2, pick).Err?
    ensures SkolemResult(g1, rank1, pick).Ok? && SkolemResult(g2, rank2, pick).Ok? ==> r.Ok?
    ensures g1 == g2 && filter.None? && SkolemResult(g1, rank1, pick).Ok? ==> r == Ok([])
  {
    var subjs1 := PrimarySubjectsCorrected(g1);
    var subjs2 := PrimarySubjectsCorrected(g2);
    r := CompareSubjects(g1, g2, subjs1, subjs2, ignoreOwlVersion, ignoreTypeArcs, filter, rank1, rank2, pick);
    SkolemAccepted(g1, g2, rank1, rank2, pick);
    if r.Err? && SkolemResult(g1, rank1, pick).Ok? && SkolemResult(g2, rank2, pick).Ok? {
      var s :| s in subjs1 * subjs2 && SubjectDiff(g1, g2, s, ignoreOwlVersion, ignoreTypeArcs, filter, rank1, rank2, pick).Err?;
      SubjectDiffOk(g1, g2, s, ignoreOwlVersion, ignoreTypeArcs, filter, rank1, rank2, pick);
    }
    if g1 == g2 && filter.None? && r.Ok? && r.value != [] {
      var sec := r.value[0];
      assert sec in r.value;
      SelfDiffEmpty(g1, sec.s, ignoreOwlVersion, ignoreTypeArcs, rank1, rank2, pick);
    }
  }
}
