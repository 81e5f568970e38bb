/**
 * The resource mapper: one FHIR JSON resource becomes FHIR RDF triples, added in place to a
 * shared graph. The schema graph (the FHIR metadata vocabulary) decides, member by member,
 * whether a value is an atomic literal, a primitive value node or a nested structure.
 */
module FhirResourceLoader {
  import opened Wrappers
  import opened Strings
  import opened Json
  import opened Errors
  import opened Rdf
  import opened FhirMetaVoc
  import opened FhirResourceRe
  import opened FhirResourceTypes
  import opened CodeSystems
  import FhirGraphUtils

  const FHIR_TREE_ROOT: Term := Fhir("treeRoot")
  const FHIR_RESOURCE: Term := Fhir("Resource")
  const FHIR_ELEMENT: Term := Fhir("Element")
  const BUNDLE_ENTRY: Term := Fhir("Bundle.entry")
  const BUNDLE_ENTRY_FULL_URL: Term := Fhir("Bundle.entry.fullUrl")
  const BUNDLE_ENTRY_RESOURCE: Term := Fhir("Bundle.entry.resource")
  const BUNDLE_ENTRY_COMPONENT: Term := Fhir("BundleEntryComponent")
  /** The bundle entry members that `add_val` does not map onto the bundle itself. */
  const ENTRY_SKIPPED: set<string> := {"resource", "fullUrl"}
  const NARRATIVE_DIV: Term := Fhir("Narrative.div")
  const REFERENCE_REFERENCE: Term := Fhir("Reference.reference")
  const OWL_ONTOLOGY: Term := Owl("Ontology")
  const OWL_IMPORTS: Term := Owl("imports")

  /** A narrative longer than this is replaced when replacement is asked for. */
  const NARRATIVE_LIMIT: nat := 120

  // ---- literals ----

  /** `str(v)` of a JSON scalar; the text of an object or array is not modelled. */
  function PyStr(v: Json): string {
    match v
    case JString(s) => s
    case JInt(n) => IntToString(n)
    case JFloat(t) => t
    case JBool(b) => if b then "True" else "False"
    case _ => ""
  }

  /** `len(v)`: characters of a string, members of an object, items of an array; None for a number. */
  function PyLen(v: Json): Option<nat> {
    match v
    case JString(s) => Some(|s|)
    case JObject(ms) => Some(|ms|)
    case JArray(items) => Some(|items|)
    case _ => None
  }

  /** `Literal(v)`: a plain literal for a string, an XSD-typed one for a number or a boolean. */
  function LiteralOf(v: Json): Term {
    match v
    case JInt(n) => Lit(IntToString(n), Some(XSD_NS + "integer"))
    case JFloat(t) => Lit(t, Some(XSD_NS + "double"))
    case JBool(b) => Lit(if b then "true" else "false", Some(XSD_NS + "boolean"))
    case _ => Lit(PyStr(v), None)
  }

  function DatatypeIri(dt: Option<Term>): Option<string> {
    if dt.Some? && dt.value.Uri? then Some(dt.value.iri) else None
  }

  /** `Literal(v, datatype=dt)`: the lexical form of `Literal(v)` under `dt`, when there is one. */
  function TypedLiteral(v: Json, dt: Option<Term>): Term {
    if dt.None? then LiteralOf(v) else Lit(LiteralOf(v).lex, DatatypeIri(dt))
  }

  /** `Literal(i)` for a list position. */
  function IndexLiteral(i: nat): Term {
    Lit(NatToString(i), Some(XSD_NS + "integer"))
  }

  /** Positions are told apart by their literals. */
  lemma IndexLiteralInjective(i: nat, j: nat)
    requires IndexLiteral(i) == IndexLiteral(j)
    ensures i == j
  {
    NatToStringInjective(i, j);
  }

  /**
   * The literal written for an atomic member: a narrative `div` longer than the limit becomes the
   * boilerplate text when replacement is on (measuring a number is a TypeError); any other value
   * is written as it is.
   */
  function AtomValue(replace: bool, pred: Term, val: Json): (r: Result<Term, PyError>)
    ensures !replace || pred != NARRATIVE_DIV ==> r == Ok(LiteralOf(val))
    ensures replace && pred == NARRATIVE_DIV && val.JString? ==>
      r == Ok(if |val.str| > NARRATIVE_LIMIT then Lit(REPLACED_NARRATIVE_TEXT, None) else Lit(val.str, None))
    ensures r.Err? ==> r.error == TypeError && PyLen(val).None?
  {
    if replace && pred == NARRATIVE_DIV then
      match PyLen(val)
      case None => Err(TypeError)
      case Some(n) => Ok(if n > NARRATIVE_LIMIT then LiteralOf(JString(REPLACED_NARRATIVE_TEXT)) else LiteralOf(val))
    else Ok(LiteralOf(val))
  }

  // ---- the ontology header ----

  /** `root.meta.versionId`, when the resource has one. */
  function VersionId(root: Json): Option<Json> {
    match Get(root, "meta")
    case Some(m) => Get(m, "versionId")
    case None => None
  }

  /** A version id that is there but not a string: the header's concatenation fails. */
  predicate BadVersion(root: Json) {
    VersionId(root).Some? && !VersionId(root).value.JString?
  }

  /** The version id when it is a string. */
  function VersionText(root: Json): Option<string> {
    match VersionId(root)
    case Some(JString(v)) => Some(v)
    case _ => None
  }

  /** The OWL header of a resource: an ontology importing `fhir.ttl`, versioned by `meta.versionId`. */
  function OntologyTriples(resourceUri: string, version: Option<string>): (r: Graph)
    ensures Triple(Uri(resourceUri + ".ttl"), RDF_TYPE, OWL_ONTOLOGY) in r
    ensures Triple(Uri(resourceUri + ".ttl"), OWL_IMPORTS, Fhir("fhir.ttl")) in r
    ensures forall t :: t in r ==> t.s == Uri(resourceUri + ".ttl")
    ensures (exists o :: Triple(Uri(resourceUri + ".ttl"), OWL_VERSION_IRI, o) in r) <==> version.Some?
    ensures version.Some? ==>
      Triple(Uri(resourceUri + ".ttl"), OWL_VERSION_IRI, Uri(resourceUri + ".ttl" + "/_history/" + version.value)) in r
  {
    var ont := Uri(resourceUri + ".ttl");
    var header := {Triple(ont, RDF_TYPE, OWL_ONTOLOGY), Triple(ont, OWL_IMPORTS, Fhir("fhir.ttl"))};
    assert forall o :: Triple(ont, OWL_VERSION_IRI, o) !in header;
    if version.None? then header
    else header + {Triple(ont, OWL_VERSION_IRI, Uri(ont.iri + "/_history/" + version.value))}
  }

  // ---- references ----

  /**
   * `add_reference`'s choice of link target and target type: a well-formed reference keeps an
   * absolute text and resolves a relative one against the base; other text holding "://" is taken
   * as it is, of type Resource; other text not starting with '#' or '/' is resolved against the
   * base, its type being what precedes the first '/'. Anything else gives no link. `types` is
   * the alternation of type names the pattern accepts.
   */
  function ReferenceTarget(val: string, base: string, quote: string -> string, types: set<string>): (r: Option<(string, string)>)
    ensures MatchIn(types, val).Some? && MatchIn(types, val).value.base.Some? ==> r == Some((val, MatchIn(types, val).value.rtype))
    ensures MatchIn(types, val).Some? && MatchIn(types, val).value.base.None? && base + quote(val) != "" ==>
      r == Some((base + quote(val), MatchIn(types, val).value.rtype))
    ensures MatchIn(types, val).None? && Contains(val, "://") ==> r == Some((val, "Resource"))
    ensures MatchIn(types, val).None? && !Contains(val, "://") && r.Some? ==>
      && base != "" && !StartsWith(val, "#") && !StartsWith(val, "/")
      && r.value == (base + quote(val), if '/' in val then BeforeFirst(val, '/') else "Resource")
    ensures r.Some? ==> r.value.0 != ""
  {
    var target :=
      match MatchIn(types, val)
      case Some(m) => Some((if m.base.Some? then val else base + quote(val), m.rtype))
      case None =>
        if Contains(val, "://") then Some((val, "Resource"))
        else if base != "" && !StartsWith(val, "#") && !StartsWith(val, "/") then
          Some((base + quote(val), if '/' in val then BeforeFirst(val, '/') else "Resource"))
        else None;
    if target.Some? && target.value.0 != "" then target else None
  }

  /** A well-formed relative reference links to the base plus the quoted reference, typed by its group 4. */
  lemma RelativeReference(m: ReMatch, base: string, quote: string -> string)
    requires ValidGroups(m) && m.base.None? && base != ""
    ensures ReferenceTarget(Render(m), base, quote, RESOURCE_TYPES) == Some((base + quote(Render(m)), m.rtype))
  {
    MatchComplete(m);
  }

  /** A well-formed absolute reference links to itself. */
  lemma AbsoluteReference(m: ReMatch, base: string, quote: string -> string)
    requires ValidGroups(m) && m.base.Some?
    ensures ReferenceTarget(Render(m), base, quote, RESOURCE_TYPES) == Some((Render(m), m.rtype))
  {
    MatchComplete(m);
  }

  /** The link triple and the type triple of a reference: both or neither. */
  function ReferenceTriples(subj: Term, target: Option<(string, string)>): (r: Graph)
    ensures target.None? ==> r == {}
    ensures target.Some? ==> r == {Triple(subj, FHIR_LINK, Uri(target.value.0)), Triple(Uri(target.value.0), RDF_TYPE, Fhir(target.value.1))}
  {
    match target
    case None => {}
    case Some((u, ty)) => {Triple(subj, FHIR_LINK, Uri(u)), Triple(Uri(u), RDF_TYPE, Fhir(ty))}
  }

  // ---- coding type arcs ----

  /**
   * `add_type_arc`'s decision for a coding: nothing unless both system and code are present; a
   * system that is not a string fails the pattern match with TypeError; a known system with a
   * code that cannot be quoted is a TypeError; otherwise the table lookup on the quoted code.
   */
  function TypeArcOf(val: Json, quote: string -> string, nsmap: NsMap): (r: Result<(Option<Term>, NsMap), PyError>)
    ensures !(Has(val, "system") && Has(val, "code")) ==> r == Ok((None, nsmap))
    ensures Has(val, "system") && Has(val, "code") && GetString(val, "system").None? ==> r == Err(TypeError)
    ensures GetString(val, "system").Some? && GetString(val, "code").Some? ==>
      r == Ok(TypeArc(GetString(val, "system").value, quote(GetString(val, "code").value), nsmap))
    ensures r.Ok? ==> forall j :: j in nsmap ==> j in r.value.1 && r.value.1[j] == nsmap[j]
  {
    if !(Has(val, "system") && Has(val, "code")) then Ok((None, nsmap))
    else match GetString(val, "system")
      case None => Err(TypeError)
      case Some(system) =>
        if FirstMatch(CODESYSTEM_MAPS, system).None? then Ok((None, nsmap))
        else match GetString(val, "code")
          case None => Err(TypeError)
          case Some(code) => Ok(TypeArc(system, quote(code), nsmap))
  }

  /** `obj[key]` for a member known to be there. */
  function MemberOf(j: Json, key: string): (r: Json)
    requires Has(j, key)
    ensures Get(j, key) == Some(r) && Size(r) < Size(j)
  {
    Get(j, key).value
  }

  /** An extension object that holds nothing but `fhir_comments`. */
  predicate CommentsOnly(e: Json) {
    e.JObject? && Has(e, "fhir_comments") && |e.members| == 1
  }

  /** The base URI with '/' appended, unless it already ends in '/' or '#'. */
  function SlashedBase(base: string): (r: string)
    requires base != ""
    ensures EndsWith(r, "/") || EndsWith(r, "#")
    ensures EndsWith(base, "/") || EndsWith(base, "#") ==> r == base
    ensures !(EndsWith(base, "/") || EndsWith(base, "#")) ==> r == base + "/"
  {
    if base[|base| - 1] == '/' || base[|base| - 1] == '#' then base else base + "/"
  }

  // ---- the uuid4 supply ----

  /** `uuid4()`: a supplied sequence of identifiers, drawn one at a time. */
  class Uuids {
    const ids: nat -> string
    var drawn: nat

    constructor (ids: nat -> string)
      ensures this.ids == ids && drawn == 0
    {
      this.ids := ids;
      drawn := 0;
    }

    method Uuid4() returns (s: string)
      modifies this
      ensures s == ids(old(drawn)) && drawn == old(drawn) + 1
    {
      s := ids(drawn);
      drawn := drawn + 1;
    }
  }

  // ---- growth of the shared state ----

  /** Every node of `nodes` is a blank node numbered `from` or above, in increasing order. */
  ghost predicate FreshInOrder(nodes: seq<Term>, from: nat) {
    && (forall j :: 0 <= j < |nodes| ==> nodes[j].BNode? && from <= nodes[j].id)
    && (forall j, k :: 0 <= j < k < |nodes| ==> nodes[j].id < nodes[k].id)
  }

  /** Element `j` of a list: node `nodes[j]`, indexed `j` and linked from `subj` by `pred`. */
  ghost predicate IndexedNodes(t: Graph, subj: Term, pred: Term, nodes: seq<Term>) {
    forall j :: 0 <= j < |nodes| ==>
      Triple(nodes[j], FHIR_INDEX, IndexLiteral(j)) in t && Triple(subj, pred, nodes[j]) in t
  }

  lemma IndexedNodesExtend(t: Graph, t': Graph, subj: Term, pred: Term, nodes: seq<Term>, e: Term)
    requires IndexedNodes(t, subj, pred, nodes) && t <= t'
    requires Triple(e, FHIR_INDEX, IndexLiteral(|nodes|)) in t' && Triple(subj, pred, e) in t'
    ensures IndexedNodes(t', subj, pred, nodes + [e])
  {
  }

  lemma FreshInOrderExtend(nodes: seq<Term>, from: nat, e: Term)
    requires FreshInOrder(nodes, from) && e.BNode? && from <= e.id
    requires forall j :: 0 <= j < |nodes| ==> nodes[j].id < e.id
    ensures FreshInOrder(nodes + [e], from)
  {
  }

  lemma FreshNodesUnused(t: Graph, n: nat, nodes: seq<Term>)
    requires NumberedBelow(t, n) && FreshInOrder(nodes, n)
    ensures forall j :: 0 <= j < |nodes| ==> Unused(t, nodes[j])
  {
    forall j | 0 <= j < |nodes| ensures Unused(t, nodes[j]) {
      forall tr | tr in t ensures tr.s != nodes[j] && tr.o != nodes[j] {
        assert BNodeBelow(tr.s, n) && BNodeBelow(tr.o, n);
      }
    }
  }

  // ---- the mapper ----

  /**
   * `FHIRResource`: the resource being mapped and the state the mapping updates: the shared
   * target graph (with its blank-node supply) and the extra namespace prefixes the coding type
   * arcs call for.
   */
  class FhirResource {
    const vocabulary: Graph
    ghost const rank: Term -> nat
    const pick: Chooser
    const settings: Settings
    const quote: string -> string
    /** The type names of the reference pattern, always `RESOURCE_TYPES`. */
    const resourceTypes: set<string>
    const uuids: Uuids
    const root: Json
    const baseUri: string
    const resourceUri: string
    const resourceType: string
    const g: GraphStore
    const addOntologyHeader: bool
    const replaceNarrativeText: bool
    var addlNamespaces: NsMap

    /** What the constructor establishes and nothing changes. */
    ghost predicate Valid() {
      && Acyclic(vocabulary, rank)
      && GetString(root, "resourceType") == Some(resourceType)
      && (EndsWith(baseUri, "/") || EndsWith(baseUri, "#"))
    }

    constructor (vocabulary: Graph, ghost rank: Term -> nat, pick: Chooser, settings: Settings,
                 quote: string -> string, uuids: Uuids, root: Json, baseUri: string, resourceUri: string,
                 resourceType: string, g: GraphStore, addOntologyHeader: bool, replaceNarrativeText: bool)
      ensures this.vocabulary == vocabulary && this.rank == rank && this.pick == pick
      ensures this.settings == settings && this.quote == quote && this.uuids == uuids
      ensures this.root == root && this.baseUri == baseUri && this.resourceUri == resourceUri
      ensures this.resourceType == resourceType && this.g == g
      ensures this.addOntologyHeader == addOntologyHeader && this.replaceNarrativeText == replaceNarrativeText
      ensures addlNamespaces == map[] && resourceTypes == RESOURCE_TYPES
    {
      this.vocabulary := vocabulary;
      this.rank := rank;
      this.pick := pick;
      this.settings := settings;
      this.quote := quote;
      this.resourceTypes := RESOURCE_TYPES;
      this.uuids := uuids;
      this.root := root;
      this.baseUri := baseUri;
      this.resourceUri := resourceUri;
      this.resourceType := resourceType;
      this.g := g;
      this.addOntologyHeader := addOntologyHeader;
      this.replaceNarrativeText := replaceNarrativeText;
      addlNamespaces := map[];
    }

    /** Triples and blank nodes were only added, and prefixes only bound, since the given state. */
    ghost predicate Grown(t0: Graph, n0: nat, ns0: NsMap)
      reads this, g
    {
      && t0 <= g.triples && n0 <= g.nextBNode && g.Fresh()
      && ns0.Keys <= addlNamespaces.Keys && (forall j :: j in ns0 ==> addlNamespaces[j] == ns0[j])
    }

    /** Nothing changed since the given state. */
    ghost predicate Same(t0: Graph, n0: nat, ns0: NsMap)
      reads this, g
    {
      g.triples == t0 && g.nextBNode == n0 && addlNamespaces == ns0
    }

    // ---- what a successful mapping leaves in the graph ----

    /** Primitive value node `n` holds the value's literal, typed as `primitive_datatype_nostring` may decide. */
    ghost predicate PrimitiveHolds(n: Term, val: Json, vt: Option<Term>, t: Graph) {
      exists dt :: NoStringChoice(settings, vocabulary, vt, Some(val), pick, Ok(dt))
        && Triple(n, FHIR_VALUE, Lit(PyStr(val), DatatypeIri(dt))) in t
    }

    /** The datatype a list element that is not an object is written with. */
    ghost predicate ListAtomType(pred: Term, dt: Option<Term>) {
      match PredicateType(vocabulary, pred, pick)
      case None => dt.None?
      case Some(vt) => NoStringChoice(settings, vocabulary, Some(vt), None, pick, Ok(dt))
    }

    /** The property `preds[k]` of `predicates()` can be: one tagged `k`, an own one when `k` is an own tag. */
    ghost predicate PredicateFor(nt: Term, k: string, p: Term)
      requires Acyclic(vocabulary, rank)
    {
      && p in AllPredicates(vocabulary, nt, rank) && Tag(p) == k
      && (k in TagsOf(OwnPredicates(vocabulary, nt), Tag) ==> p in OwnPredicates(vocabulary, nt))
    }

    /** The type a coding gives its node, as `add_type_arc` decides it (the prefix map aside). */
    function CodingType(val: Json): Result<Option<Term>, PyError> {
      match TypeArcOf(val, quote, map[])
      case Err(e) => Err(e)
      case Ok(r) => Ok(r.0)
    }

    /** The coding type does not depend on the prefixes bound so far. */
    lemma CodingTypeAnyMap(val: Json, nsmap: NsMap)
      ensures TypeArcOf(val, quote, nsmap).Ok? <==> CodingType(val).Ok?
      ensures TypeArcOf(val, quote, nsmap).Err? ==> TypeArcOf(val, quote, nsmap).error == CodingType(val).error
      ensures TypeArcOf(val, quote, nsmap).Ok? ==> TypeArcOf(val, quote, nsmap).value.0 == CodingType(val).value
    {
      if GetString(val, "system").Some? && GetString(val, "code").Some? {
        TypeArcAnyMap(GetString(val, "system").value, quote(GetString(val, "code").value), nsmap);
      }
    }

    /** A coding typed its node `subj` in `t`. */
    ghost predicate CodingTyped(subj: Term, val: Json, t: Graph) {
      CodingType(val).Ok? && (CodingType(val).value.Some? ==> Triple(subj, RDF_TYPE, CodingType(val).value.value) in t)
    }

    /**
     * Member `key` of `jsonObj`, mapped by `add_val` as the object of `subj pred`, is in `t`: a
     * list as one indexed node per element (a bundle's as entry nodes), a single value by
     * `ValueHolds`. An absent member asks for nothing.
     */
    ghost predicate MemberHolds(subj: Term, pred: Term, jsonObj: Json, key: string, valuetype: Option<Term>, t: Graph)
      decreases Size(jsonObj), 4
    {
      Has(jsonObj, key) ==>
        var val := MemberOf(jsonObj, key);
        if val.JArray? then
          if pred == BUNDLE_ENTRY then exists nodes :: |nodes| == |val.items| && BundleNodesHold(subj, pred, val.items, nodes, t)
          else exists nodes :: |nodes| == |val.items| && ListNodesHold(subj, pred, val.items, valuetype, nodes, t)
        else ValueHolds(subj, pred, jsonObj, key, valuetype, t)
    }

    /**
     * A single value: an atomic predicate's literal as the object itself; otherwise a value node
     * (`NodeHolds`). An unknown predicate cannot succeed.
     */
    ghost predicate ValueHolds(subj: Term, pred: Term, jsonObj: Json, key: string, valuetype: Option<Term>, t: Graph)
      requires Has(jsonObj, key)
      decreases Size(jsonObj), 3
    {
      var val := MemberOf(jsonObj, key);
      match IsAtom(vocabulary, pred)
      case Err(_) => false
      case Ok(atomic) =>
        if atomic then
          AtomValue(replaceNarrativeText, pred, val).Ok? && Triple(subj, pred, AtomValue(replaceNarrativeText, pred, val).value) in t
        else exists n :: NodeHolds(subj, pred, jsonObj, key, valuetype, n, t)
    }

    /**
     * Value node `n` of a single value: a blank node under `subj pred` holding the primitive
     * literal or, for any other type, the value's members; a reference also links `subj`; the
     * value's `_key` extensions hang on `n`.
     */
    ghost predicate NodeHolds(subj: Term, pred: Term, jsonObj: Json, key: string, valuetype: Option<Term>, n: Term, t: Graph)
      requires Has(jsonObj, key)
      decreases Size(jsonObj), 2
    {
      var val := MemberOf(jsonObj, key);
      var vt := SingularType(pred, valuetype);
      && n.BNode? && Triple(subj, pred, n) in t
      && (if IsPrimitive(vocabulary, vt) then PrimitiveHolds(n, val, vt, t) else NodeBodyHolds(n, pred, val, valuetype, t))
      && (pred == REFERENCE_REFERENCE ==> val.JString? && ReferenceTriples(subj, ReferenceTarget(val.str, baseUri, quote, resourceTypes)) <= t)
      && ExtensionHolds(n, jsonObj, key, None, t)
    }

    /**
     * `add_value_node(subj, pred, val, valuetype)` succeeded into `t`: the node type is known and
     * every JSON tag of its properties had its effect, under a property `predicates()` can bind it to.
     */
    ghost predicate NodeBodyHolds(subj: Term, pred: Term, val: Json, valuetype: Option<Term>, t: Graph)
      decreases Size(val), 7
    {
      && NodeType(pred, val, valuetype).Ok?
      && Acyclic(vocabulary, rank)
      && var nt := NodeType(pred, val, valuetype).value;
         forall k :: k in TagsOf(AllPredicates(vocabulary, nt, rank), Tag) ==>
           exists p :: PredicateFor(nt, k, p) && MemberEffect(subj, pred, val, k, p, t)
    }

    /**
     * The effect of property `p` (tag `k`) on value node `subj`: a present member is mapped (a
     * coding also types `subj`); an absent `value` of an `Element` property takes the `value[x]`
     * members; any other absent member may still carry extensions.
     */
    ghost predicate MemberEffect(subj: Term, pred: Term, val: Json, k: string, p: Term, t: Graph)
      decreases Size(val), 6
    {
      if Has(val, k) then
        MemberHolds(subj, p, val, k, None, t)
        && (pred == FhirGraphUtils.CODEABLE_CONCEPT_CODING ==> CodingTyped(subj, val, t))
      else if k == "value" && PredicateType(vocabulary, p, pick) == Some(FHIR_ELEMENT) then
        ChoicesHold(subj, val, Keys(val), t)
      else
        ExtensionHolds(subj, val, k, Some(p), t)
    }

    /** Every `value[x]` key among `ks` is mapped as `Extension.value[x]`, typed by its suffix. */
    ghost predicate ChoicesHold(subj: Term, val: Json, ks: seq<string>, t: Graph)
      decreases Size(val), 5
    {
      forall k :: k in ks && StartsWith(k, "value") ==>
        ValuePredicateToType(vocabulary, k).Ok?
        && MemberHolds(subj, Fhir("Extension." + k), val, k, Some(ValuePredicateToType(vocabulary, k).value), t)
    }

    /**
     * `add_extension_val(subj, jsonObj, key, pred)` succeeded into `t`: without `_key` nothing is
     * asked; otherwise `subj` is a blank node and a list is one indexed node per extension under
     * `subj pred`, an object holding only comments is dropped, and any other object's `extension`
     * member is mapped under `Element.extension`.
     */
    ghost predicate ExtensionHolds(subj: Term, jsonObj: Json, key: string, pred: Option<Term>, t: Graph)
      decreases Size(jsonObj), 1
    {
      Has(jsonObj, "_" + key) ==>
        var ext := MemberOf(jsonObj, "_" + key);
        && subj.BNode?
        && if ext.JArray? then
             pred.Some? && exists nodes :: |nodes| == |ext.items| && ExtNodesHold(subj, pred.value, ext.items, nodes, t)
           else
             CommentsOnly(ext) || MemberHolds(subj, FhirGraphUtils.ELEMENT_EXTENSION, ext, "extension", None, t)
    }

    /** Extension `j` of a list: node `nodes[j]`, indexed and linked, holding that extension's `extension` member. */
    ghost predicate ExtNodesHold(subj: Term, pred: Term, items: seq<Json>, nodes: seq<Term>, t: Graph)
      decreases Size(JArray(items)), 0
    {
      && |nodes| <= |items| && IndexedNodes(t, subj, pred, nodes)
      && forall j :: 0 <= j < |nodes| ==>
           MemberHolds(nodes[j], FhirGraphUtils.ELEMENT_EXTENSION, ItemAt(items, j), "extension", None, t)
    }

    /** Element `j` of a list: node `nodes[j]`, indexed and linked, holding the element (`ItemHolds`). */
    ghost predicate ListNodesHold(subj: Term, pred: Term, items: seq<Json>, valuetype: Option<Term>, nodes: seq<Term>, t: Graph)
      decreases Size(JArray(items)), 9
    {
      && |nodes| <= |items| && IndexedNodes(t, subj, pred, nodes)
      && forall j :: 0 <= j < |nodes| ==> ItemHolds(nodes[j], pred, ItemAt(items, j), valuetype, t)
    }

    /** A list element's node: an object's members, or the element's literal typed as `ListAtomType` allows. */
    ghost predicate ItemHolds(entry: Term, pred: Term, item: Json, valuetype: Option<Term>, t: Graph)
      decreases Size(item), 8
    {
      if item.JObject? then NodeBodyHolds(entry, pred, item, valuetype, t)
      else exists dt :: ListAtomType(pred, dt) && Triple(entry, FHIR_VALUE, TypedLiteral(item, dt)) in t
    }

    /**
     * Bundle entry `j`: node `e` under `subj pred`, indexed `j`, holding the entry's `fullUrl` and
     * naming it as its resource; the entry's other members are mapped onto `subj` itself; the
     * resource, mapped under that URI, is typed there.
     */
    ghost predicate BundleEntryHolds(subj: Term, pred: Term, lv: Json, j: nat, e: Term, t: Graph)
      decreases Size(lv), 10
    {
      && Has(lv, "fullUrl") && Has(lv, "resource")
      && Triple(subj, pred, e) in t && Triple(e, FHIR_INDEX, IndexLiteral(j)) in t
      && MemberHolds(e, BUNDLE_ENTRY_FULL_URL, lv, "fullUrl", None, t)
      && Triple(e, BUNDLE_ENTRY_RESOURCE, Uri(PyStr(MemberOf(lv, "fullUrl")))) in t
      && EntryMembersHold(subj, lv, t)
      && (PyStr(MemberOf(lv, "fullUrl")) != "" ==>
            GetString(MemberOf(lv, "resource"), "resourceType").Some?
            && Triple(Uri(PyStr(MemberOf(lv, "fullUrl"))), RDF_TYPE,
                      Fhir(GetString(MemberOf(lv, "resource"), "resourceType").value)) in t)
    }

    /**
     * Every tag of `BundleEntryComponent`'s properties but `resource` and `fullUrl` that entry `lv`
     * holds is mapped with `subj`, the bundle, as its subject.
     */
    ghost predicate EntryMembersHold(subj: Term, lv: Json, t: Graph)
      decreases Size(lv), 5
    {
      && Acyclic(vocabulary, rank)
      && forall k :: k in TagsOf(AllPredicates(vocabulary, BUNDLE_ENTRY_COMPONENT, rank), Tag)
                     && k !in ENTRY_SKIPPED && Has(lv, k) ==>
           exists p :: PredicateFor(BUNDLE_ENTRY_COMPONENT, k, p) && MemberHolds(subj, p, lv, k, None, t)
    }

    ghost predicate BundleNodesHold(subj: Term, pred: Term, items: seq<Json>, nodes: seq<Term>, t: Graph)
      decreases Size(JArray(items)), 11
    {
      |nodes| <= |items| && forall j :: 0 <= j < |nodes| ==> BundleEntryHolds(subj, pred, ItemAt(items, j), j, nodes[j], t)
    }

    /** The members `add_resource` maps: every tag of the resource type's properties that `jsonObj` holds. */
    ghost predicate ResourceHolds(subj: Term, jsonObj: Json, t: Graph) {
      && Acyclic(vocabulary, rank)
      && forall k :: k in TagsOf(AllPredicates(vocabulary, Fhir(resourceType), rank), Tag) ==>
           exists p :: PredicateFor(Fhir(resourceType), k, p) && MemberHolds(subj, p, jsonObj, k, None, t)
    }

    // ---- the mapping stays in the graph as the graph grows ----

    lemma MemberGrows(subj: Term, pred: Term, jsonObj: Json, key: string, valuetype: Option<Term>, t: Graph, t': Graph)
      requires t <= t' && MemberHolds(subj, pred, jsonObj, key, valuetype, t)
      ensures MemberHolds(subj, pred, jsonObj, key, valuetype, t')
      decreases Size(jsonObj), 4
    {
      if Has(jsonObj, key) {
        var val := MemberOf(jsonObj, key);
        if val.JArray? {
          if pred == BUNDLE_ENTRY {
            var nodes :| |nodes| == |val.items| && BundleNodesHold(subj, pred, val.items, nodes, t);
            BundleNodesGrow(subj, pred, val.items, nodes, t, t');
          } else {
            var nodes :| |nodes| == |val.items| && ListNodesHold(subj, pred, val.items, valuetype, nodes, t);
            ListNodesGrow(subj, pred, val.items, valuetype, nodes, t, t');
          }
        } else {
          ValueGrows(subj, pred, jsonObj, key, valuetype, t, t');
        }
      }
    }

    lemma ValueGrows(subj: Term, pred: Term, jsonObj: Json, key: string, valuetype: Option<Term>, t: Graph, t': Graph)
      requires Has(jsonObj, key) && t <= t' && ValueHolds(subj, pred, jsonObj, key, valuetype, t)
      ensures ValueHolds(subj, pred, jsonObj, key, valuetype, t')
      decreases Size(jsonObj), 3
    {
      if IsAtom(vocabulary, pred) == Ok(false) {
        var n :| NodeHolds(subj, pred, jsonObj, key, valuetype, n, t);
        NodeGrows(subj, pred, jsonObj, key, valuetype, n, t, t');
      }
    }

    lemma NodeGrows(subj: Term, pred: Term, jsonObj: Json, key: string, valuetype: Option<Term>, n: Term, t: Graph, t': Graph)
      requires Has(jsonObj, key) && t <= t' && NodeHolds(subj, pred, jsonObj, key, valuetype, n, t)
      ensures NodeHolds(subj, pred, jsonObj, key, valuetype, n, t')
      decreases Size(jsonObj), 2
    {
      var val := MemberOf(jsonObj, key);
      var vt := SingularType(pred, valuetype);
      if IsPrimitive(vocabulary, vt) {
        var dt :| NoStringChoice(settings, vocabulary, vt, Some(val), pick, Ok(dt))
          && Triple(n, FHIR_VALUE, Lit(PyStr(val), DatatypeIri(dt))) in t;
        assert Triple(n, FHIR_VALUE, Lit(PyStr(val), DatatypeIri(dt))) in t';
      } else {
        NodeBodyGrows(n, pred, val, valuetype, t, t');
      }
      ExtensionGrows(n, jsonObj, key, None, t, t');
    }

    lemma NodeBodyGrows(subj: Term, pred: Term, val: Json, valuetype: Option<Term>, t: Graph, t': Graph)
      requires t <= t' && NodeBodyHolds(subj, pred, val, valuetype, t)
      ensures NodeBodyHolds(subj, pred, val, valuetype, t')
      decreases Size(val), 7
    {
      var nt := NodeType(pred, val, valuetype).value;
      forall k | k in TagsOf(AllPredicates(vocabulary, nt, rank), Tag)
        ensures exists p :: PredicateFor(nt, k, p) && MemberEffect(subj, pred, val, k, p, t')
      {
        var p :| PredicateFor(nt, k, p) && MemberEffect(subj, pred, val, k, p, t);
        MemberEffectGrows(subj, pred, val, k, p, t, t');
      }
    }

    lemma MemberEffectGrows(subj: Term, pred: Term, val: Json, k: string, p: Term, t: Graph, t': Graph)
      requires t <= t' && MemberEffect(subj, pred, val, k, p, t)
      ensures MemberEffect(subj, pred, val, k, p, t')
      decreases Size(val), 6
    {
      if Has(val, k) {
        MemberGrows(subj, p, val, k, None, t, t');
      } else if k == "value" && PredicateType(vocabulary, p, pick) == Some(FHIR_ELEMENT) {
        ChoicesGrow(subj, val, Keys(val), t, t');
      } else {
        ExtensionGrows(subj, val, k, Some(p), t, t');
      }
    }

    lemma ChoicesGrow(subj: Term, val: Json, ks: seq<string>, t: Graph, t': Graph)
      requires t <= t' && ChoicesHold(subj, val, ks, t)
      ensures ChoicesHold(subj, val, ks, t')
      decreases Size(val), 5
    {
      forall k | k in ks && StartsWith(k, "value")
        ensures MemberHolds(subj, Fhir("Extension." + k), val, k, Some(ValuePredicateToType(vocabulary, k).value), t')
      {
        MemberGrows(subj, Fhir("Extension." + k), val, k, Some(ValuePredicateToType(vocabulary, k).value), t, t');
      }
    }

    /** The next key of the loop over `value[x]` keeps the earlier keys' members. */
    lemma ChoicesStep(subj: Term, val: Json, ks: seq<string>, i: nat, t: Graph, t': Graph)
      requires i < |ks| && t <= t' && ChoicesHold(subj, val, ks[..i], t)
      requires StartsWith(ks[i], "value") ==>
        && ValuePredicateToType(vocabulary, ks[i]).Ok?
        && MemberHolds(subj, Fhir("Extension." + ks[i]), val, ks[i], Some(ValuePredicateToType(vocabulary, ks[i]).value), t')
      ensures ChoicesHold(subj, val, ks[..i + 1], t')
    {
      ChoicesGrow(subj, val, ks[..i], t, t');
      assert ks[..i + 1] == ks[..i] + [ks[i]];
    }

    lemma ExtensionGrows(subj: Term, jsonObj: Json, key: string, pred: Option<Term>, t: Graph, t': Graph)
      requires t <= t' && ExtensionHolds(subj, jsonObj, key, pred, t)
      ensures ExtensionHolds(subj, jsonObj, key, pred, t')
      decreases Size(jsonObj), 1
    {
      if Has(jsonObj, "_" + key) {
        var ext := MemberOf(jsonObj, "_" + key);
        if ext.JArray? {
          var nodes :| |nodes| == |ext.items| && ExtNodesHold(subj, pred.value, ext.items, nodes, t);
          ExtNodesGrow(subj, pred.value, ext.items, nodes, t, t');
        } else if !CommentsOnly(ext) {
          MemberGrows(subj, FhirGraphUtils.ELEMENT_EXTENSION, ext, "extension", None, t, t');
        }
      }
    }

    lemma ExtNodesGrow(subj: Term, pred: Term, items: seq<Json>, nodes: seq<Term>, t: Graph, t': Graph)
      requires t <= t' && ExtNodesHold(subj, pred, items, nodes, t)
      ensures ExtNodesHold(subj, pred, items, nodes, t')
      decreases Size(JArray(items)), 0
    {
      forall j | 0 <= j < |nodes|
        ensures MemberHolds(nodes[j], FhirGraphUtils.ELEMENT_EXTENSION, ItemAt(items, j), "extension", None, t')
      {
        MemberGrows(nodes[j], FhirGraphUtils.ELEMENT_EXTENSION, ItemAt(items, j), "extension", None, t, t');
      }
    }

    lemma ListNodesGrow(subj: Term, pred: Term, items: seq<Json>, valuetype: Option<Term>, nodes: seq<Term>, t: Graph, t': Graph)
      requires t <= t' && ListNodesHold(subj, pred, items, valuetype, nodes, t)
      ensures ListNodesHold(subj, pred, items, valuetype, nodes, t')
      decreases Size(JArray(items)), 9
    {
      forall j | 0 <= j < |nodes| ensures ItemHolds(nodes[j], pred, ItemAt(items, j), valuetype, t') {
        ItemGrows(nodes[j], pred, ItemAt(items, j), valuetype, t, t');
      }
    }

    lemma ItemGrows(entry: Term, pred: Term, item: Json, valuetype: Option<Term>, t: Graph, t': Graph)
      requires t <= t' && ItemHolds(entry, pred, item, valuetype, t)
      ensures ItemHolds(entry, pred, item, valuetype, t')
      decreases Size(item), 8
    {
      if item.JObject? {
        NodeBodyGrows(entry, pred, item, valuetype, t, t');
      } else {
        var dt :| ListAtomType(pred, dt) && Triple(entry, FHIR_VALUE, TypedLiteral(item, dt)) in t;
        assert Triple(entry, FHIR_VALUE, TypedLiteral(item, dt)) in t';
      }
    }

    lemma BundleNodesGrow(subj: Term, pred: Term, items: seq<Json>, nodes: seq<Term>, t: Graph, t': Graph)
      requires t <= t' && BundleNodesHold(subj, pred, items, nodes, t)
      ensures BundleNodesHold(subj, pred, items, nodes, t')
      decreases Size(JArray(items)), 11
    {
      forall j | 0 <= j < |nodes| ensures BundleEntryHolds(subj, pred, ItemAt(items, j), j, nodes[j], t') {
        BundleEntryGrows(subj, pred, ItemAt(items, j), j, nodes[j], t, t');
      }
    }

    lemma BundleEntryGrows(subj: Term, pred: Term, lv: Json, j: nat, e: Term, t: Graph, t': Graph)
      requires t <= t' && BundleEntryHolds(subj, pred, lv, j, e, t)
      ensures BundleEntryHolds(subj, pred, lv, j, e, t')
      decreases Size(lv), 10
    {
      MemberGrows(e, BUNDLE_ENTRY_FULL_URL, lv, "fullUrl", None, t, t');
      EntryMembersGrow(subj, lv, t, t');
    }

    lemma EntryMembersGrow(subj: Term, lv: Json, t: Graph, t': Graph)
      requires t <= t' && EntryMembersHold(subj, lv, t)
      ensures EntryMembersHold(subj, lv, t')
      decreases Size(lv), 5
    {
      forall k | k in TagsOf(AllPredicates(vocabulary, BUNDLE_ENTRY_COMPONENT, rank), Tag)
                 && k !in ENTRY_SKIPPED && Has(lv, k)
        ensures exists p :: PredicateFor(BUNDLE_ENTRY_COMPONENT, k, p) && MemberHolds(subj, p, lv, k, None, t')
      {
        var p :| PredicateFor(BUNDLE_ENTRY_COMPONENT, k, p) && MemberHolds(subj, p, lv, k, None, t);
        MemberGrows(subj, p, lv, k, None, t, t');
      }
    }

    lemma ResourceGrows(subj: Term, jsonObj: Json, t: Graph, t': Graph)
      requires t <= t' && ResourceHolds(subj, jsonObj, t)
      ensures ResourceHolds(subj, jsonObj, t')
    {
      forall k | k in TagsOf(AllPredicates(vocabulary, Fhir(resourceType), rank), Tag)
        ensures exists p :: PredicateFor(Fhir(resourceType), k, p) && MemberHolds(subj, p, jsonObj, k, None, t')
      {
        var p :| PredicateFor(Fhir(resourceType), k, p) && MemberHolds(subj, p, jsonObj, k, None, t);
        MemberGrows(subj, p, jsonObj, k, None, t, t');
      }
    }

    /** `add`: one triple into the shared graph. */
    method Add(s: Term, p: Term, o: Term)
      requires g.Fresh() && BNodeBelow(s, g.nextBNode) && BNodeBelow(o, g.nextBNode)
      modifies g
      ensures g.triples == old(g.triples) + {Triple(s, p, o)} && g.nextBNode == old(g.nextBNode) && g.Fresh()
    {
      g.Add(Triple(s, p, o));
    }

    /** `add_ontology_definition`; a version id that is not a string fails the concatenation. */
    method AddOntologyDefinition() returns (err: Option<PyError>)
      requires g.Fresh()
      modifies g
      ensures g.nextBNode == old(g.nextBNode) && g.Fresh()
      ensures err.None? <==> !BadVersion(root)
      ensures err.None? ==> g.triples == old(g.triples) + OntologyTriples(resourceUri, VersionText(root))
      ensures err.Some? ==> err == Some(TypeError) && g.triples == old(g.triples) + OntologyTriples(resourceUri, None)
    {
      var ont := Uri(resourceUri + ".ttl");
      Add(ont, RDF_TYPE, OWL_ONTOLOGY);
      Add(ont, OWL_IMPORTS, Fhir("fhir.ttl"));
      match VersionId(root)
      case None =>
        err := None;
      case Some(JString(v)) =>
        Add(ont, OWL_VERSION_IRI, Uri(ont.iri + "/_history/" + v));
        err := None;
      case Some(_) =>
        err := Some(TypeError);
    }

    /** `add_reference`: the link and its type together, or nothing; only a string can be matched. */
    method AddReference(subj: Term, val: Json) returns (err: Option<PyError>)
      requires g.Fresh() && BNodeBelow(subj, g.nextBNode)
      modifies g
      ensures g.nextBNode == old(g.nextBNode) && g.Fresh()
      ensures !val.JString? ==> err == Some(TypeError) && g.triples == old(g.triples)
      ensures val.JString? ==>
        err.None? && g.triples == old(g.triples) + ReferenceTriples(subj, ReferenceTarget(val.str, baseUri, quote, resourceTypes))
    {
      if !val.JString? {
        return Some(TypeError);
      }
      var target := ReferenceTarget(val.str, baseUri, quote, resourceTypes);
      if target.Some? {
        var (u, ty) := target.value;
        Add(subj, FHIR_LINK, Uri(u));
        Add(Uri(u), RDF_TYPE, Fhir(ty));
      }
      err := None;
    }

    /** `add_type_arc`: the subject typed by its coding, as the code-system table decides. */
    method AddTypeArc(subj: Term, val: Json) returns (err: Option<PyError>)
      requires g.Fresh() && BNodeBelow(subj, g.nextBNode)
      modifies this, g
      ensures g.nextBNode == old(g.nextBNode) && g.Fresh()
      ensures var d := TypeArcOf(val, quote, old(addlNamespaces));
        && (d.Err? ==> err == Some(d.error) && g.triples == old(g.triples) && addlNamespaces == old(addlNamespaces))
        && (d.Ok? ==> err.None? && addlNamespaces == d.value.1)
        && (d.Ok? ==> g.triples == old(g.triples) + (if d.value.0.Some? then {Triple(subj, RDF_TYPE, d.value.0.value)} else {}))
    {
      var d := TypeArcOf(val, quote, addlNamespaces);
      if d.Err? {
        return Some(d.error);
      }
      addlNamespaces := d.value.1;
      if d.value.0.Some? {
        Add(subj, RDF_TYPE, d.value.0.value);
      }
      err := None;
    }

    /** The type whose properties a value node is mapped by (`add_value_node`'s `val_meta`). */
    function NodeType(pred: Term, val: Json, valuetype: Option<Term>): (r: Result<Term, PyError>)
      ensures valuetype.Some? && valuetype != Some(FHIR_RESOURCE) ==> r == Ok(valuetype.value)
      ensures valuetype.None? && PredicateType(vocabulary, pred, pick).None? ==> r == Err(TypeError)
      ensures valuetype.None? && PredicateType(vocabulary, pred, pick).Some? && PredicateType(vocabulary, pred, pick) != Some(FHIR_RESOURCE) ==>
        r == Ok(PredicateType(vocabulary, pred, pick).value)
      ensures SingularType(pred, valuetype) == Some(FHIR_RESOURCE) ==>
        (r.Ok? <==> GetString(val, "resourceType").Some?) && (r.Ok? ==> r.value == Fhir(GetString(val, "resourceType").value))
    {
      var t := if valuetype.Some? then valuetype else PredicateType(vocabulary, pred, pick);
      if t == Some(FHIR_RESOURCE) then
        match Get(val, "resourceType")
        case None => Err(AttributeError)
        case Some(JString(rt)) => Ok(Fhir(rt))
        case Some(_) => Err(TypeError)
      else if t.None? then Err(TypeError)
      else Ok(t.value)
    }

    /** The type a single value is classified by. */
    function SingularType(pred: Term, valuetype: Option<Term>): Option<Term> {
      if valuetype.Some? then valuetype else PredicateType(vocabulary, pred, pick)
    }

    /** The value type given wins; otherwise the predicate's range, None exactly when it has none. */
    lemma SingularTypeOf(pred: Term, valuetype: Option<Term>)
      ensures valuetype.Some? ==> SingularType(pred, valuetype) == valuetype
      ensures SingularType(pred, valuetype).None? <==>
        valuetype.None? && forall q :: Triple(pred, RDFS_RANGE, q) !in vocabulary
      ensures valuetype.None? && FairChooser(pick) && SingularType(pred, valuetype).Some? ==>
        Triple(pred, RDFS_RANGE, SingularType(pred, valuetype).value) in vocabulary
    {
    }

    /**
     * What mapping the single value `val` of `subj pred` does, starting from graph `t0` with the
     * supply at `n0`: an unknown predicate is a TypeError; an atomic one adds exactly its literal;
     * any other makes a value node (`NodeOutcome`).
     */
    ghost predicate SingularOutcome(subj: Term, pred: Term, jsonObj: Json, key: string, valuetype: Option<Term>,
                                    r: Result<Option<Term>, PyError>, t0: Graph, n0: nat)
      requires Has(jsonObj, key)
      reads this, g
    {
      match IsAtom(vocabulary, pred)
      case Err(e) => r == Err(e) && g.triples == t0
      case Ok(atomic) =>
        if atomic then AtomOutcome(subj, pred, MemberOf(jsonObj, key), r, t0)
        else NodeOutcome(subj, pred, jsonObj, key, valuetype, r, t0, n0)
    }

    /** An atomic value adds exactly its literal, unless measuring a narrative fails. */
    ghost predicate AtomOutcome(subj: Term, pred: Term, val: Json, r: Result<Option<Term>, PyError>, t0: Graph)
      reads this, g
    {
      match AtomValue(replaceNarrativeText, pred, val)
      case Err(e) => r == Err(e) && g.triples == t0
      case Ok(l) => r == Ok(None) && g.triples == t0 + {Triple(subj, pred, l)}
    }

    /** A value node: a fresh node `_:n0`, returned, holding what `NodeHolds` says. */
    ghost predicate NodeOutcome(subj: Term, pred: Term, jsonObj: Json, key: string, valuetype: Option<Term>,
                                r: Result<Option<Term>, PyError>, t0: Graph, n0: nat)
      requires Has(jsonObj, key)
      reads this, g
    {
      r.Ok? ==>
        && r.value == Some(BNode(n0))
        && Unused(t0, BNode(n0))
        && NodeHolds(subj, pred, jsonObj, key, valuetype, BNode(n0), g.triples)
    }

    /**
     * `add_val`: the member `key` of `jsonObj` as the object of `subj pred`. An absent member adds
     * nothing and gives None; a list becomes indexed blank nodes (each entry of a bundle is also
     * mapped as a resource of its own); a single value goes to `AddSingular`.
     */
    method AddVal(subj: Term, pred: Term, jsonObj: Json, key: string, valuetype: Option<Term>)
      returns (r: Result<Option<Term>, PyError>, ghost nodes: seq<Term>)
      requires Valid() && g.Fresh() && BNodeBelow(subj, g.nextBNode)
      modifies this, g, uuids
      ensures Grown(old(g.triples), old(g.nextBNode), old(addlNamespaces))
      ensures !Has(jsonObj, key) ==> r == Ok(None) && Same(old(g.triples), old(g.nextBNode), old(addlNamespaces))
      ensures Has(jsonObj, key) && MemberOf(jsonObj, key).JArray? ==> r.Err? || r == Ok(None)
      ensures Has(jsonObj, key) && MemberOf(jsonObj, key).JArray? && r.Ok? ==>
        && |nodes| == |MemberOf(jsonObj, key).items|
        && FreshInOrder(nodes, old(g.nextBNode))
        && (pred == BUNDLE_ENTRY ==> BundleNodesHold(subj, pred, MemberOf(jsonObj, key).items, nodes, g.triples))
        && (pred != BUNDLE_ENTRY ==> ListNodesHold(subj, pred, MemberOf(jsonObj, key).items, valuetype, nodes, g.triples))
      ensures Has(jsonObj, key) && !MemberOf(jsonObj, key).JArray? ==>
        SingularOutcome(subj, pred, jsonObj, key, valuetype, r, old(g.triples), old(g.nextBNode))
      ensures r.Ok? ==> MemberHolds(subj, pred, jsonObj, key, valuetype, g.triples)
      decreases Size(jsonObj), 4
    {
      nodes := [];
      if !Has(jsonObj, key) {
        return Ok(None), nodes;
      }
      var val := MemberOf(jsonObj, key);
      if val.JArray? {
        var err;
        if pred == BUNDLE_ENTRY {
          err, nodes := AddBundleEntries(subj, pred, val.items);
        } else {
          err, nodes := AddValList(subj, pred, val.items, valuetype);
        }
        r := if err.Some? then Err(err.value) else Ok(None);
      } else {
        r := AddSingular(subj, pred, jsonObj, key, valuetype);
      }
    }

    /** The single-value branch of `add_val`. */
    method AddSingular(subj: Term, pred: Term, jsonObj: Json, key: string, valuetype: Option<Term>)
      returns (r: Result<Option<Term>, PyError>)
      requires Valid() && g.Fresh() && BNodeBelow(subj, g.nextBNode) && Has(jsonObj, key)
      modifies this, g, uuids
      ensures Grown(old(g.triples), old(g.nextBNode), old(addlNamespaces))
      ensures SingularOutcome(subj, pred, jsonObj, key, valuetype, r, old(g.triples), old(g.nextBNode))
      ensures r.Ok? ==> ValueHolds(subj, pred, jsonObj, key, valuetype, g.triples)
      decreases Size(jsonObj), 3
    {
      var atom := IsAtom(vocabulary, pred);
      if atom.Err? {
        return Err(atom.error);
      }
      if atom.value {
        r := AddAtom(subj, pred, MemberOf(jsonObj, key));
      } else {
        r := AddNode(subj, pred, jsonObj, key, valuetype);
        assert r.Ok? ==> NodeHolds(subj, pred, jsonObj, key, valuetype, r.value.value, g.triples);
      }
    }

    /** An atomic value: the literal itself as the object. */
    method AddAtom(subj: Term, pred: Term, val: Json) returns (r: Result<Option<Term>, PyError>)
      requires g.Fresh() && BNodeBelow(subj, g.nextBNode)
      modifies g
      ensures g.nextBNode == old(g.nextBNode) && g.Fresh()
      ensures AtomOutcome(subj, pred, val, r, old(g.triples))
    {
      var l := AtomValue(replaceNarrativeText, pred, val);
      if l.Err? {
        return Err(l.error);
      }
      Add(subj, pred, l.value);
      r := Ok(None);
    }

    /**
     * A primitive value node's literal, typed by `primitive_datatype_nostring` of the value; when
     * that fails (a truthy dateTime value that is not a string) nothing is added.
     */
    method AddPrimitive(v: Term, val: Json, vt: Option<Term>) returns (dt: Result<Option<Term>, PyError>)
      requires g.Fresh() && BNodeBelow(v, g.nextBNode)
      modifies g
      ensures g.nextBNode == old(g.nextBNode) && g.Fresh()
      ensures NoStringChoice(settings, vocabulary, vt, Some(val), pick, dt)
      ensures dt.Err? ==>
        dt.error == TypeError && settings.fhirDates && JsonTruthy(val) && !val.JString? && g.triples == old(g.triples)
      ensures dt.Ok? ==> g.triples == old(g.triples) + {Triple(v, FHIR_VALUE, Lit(PyStr(val), DatatypeIri(dt.value)))}
    {
      dt := PrimitiveDatatypeNoString(settings, vocabulary, vt, Some(val), pick);
      if dt.Ok? {
        Add(v, FHIR_VALUE, Lit(PyStr(val), DatatypeIri(dt.value)));
      }
    }

    /** A non-atomic single value: a fresh value node, its reference link and its extensions. */
    method AddNode(subj: Term, pred: Term, jsonObj: Json, key: string, valuetype: Option<Term>)
      returns (r: Result<Option<Term>, PyError>)
      requires Valid() && g.Fresh() && BNodeBelow(subj, g.nextBNode) && Has(jsonObj, key)
      modifies this, g, uuids
      ensures Grown(old(g.triples), old(g.nextBNode), old(addlNamespaces))
      ensures NodeOutcome(subj, pred, jsonObj, key, valuetype, r, old(g.triples), old(g.nextBNode))
      decreases Size(jsonObj), 2
    {
      var val := MemberOf(jsonObj, key);
      var v := g.NewBNode();
      var err0 := FillValueNode(v, pred, val, valuetype);
      if err0.Some? {
        return Err(err0.value);
      }
      ghost var t1 := g.triples;
      Add(subj, pred, v);
      if pred == REFERENCE_REFERENCE {
        var err := AddReference(subj, val);
        if err.Some? {
          return Err(err.value);
        }
      }
      ghost var t2 := g.triples;
      var err, _ := AddExtensionVal(v, jsonObj, key, None);
      if err.Some? {
        return Err(err.value);
      }
      NodeFilled(v, pred, val, valuetype, t1, g.triples);
      assert t1 <= t2 <= g.triples;
      return Ok(Some(v));
    }

    /** The contents `FillValueNode` left in `t` are still there in `t'`. */
    lemma NodeFilled(v: Term, pred: Term, val: Json, valuetype: Option<Term>, t: Graph, t': Graph)
      requires t <= t'
      requires var vt := SingularType(pred, valuetype);
        if IsPrimitive(vocabulary, vt) then PrimitiveHolds(v, val, vt, t) else NodeBodyHolds(v, pred, val, valuetype, t)
      ensures var vt := SingularType(pred, valuetype);
        if IsPrimitive(vocabulary, vt) then PrimitiveHolds(v, val, vt, t') else NodeBodyHolds(v, pred, val, valuetype, t')
    {
      var vt := SingularType(pred, valuetype);
      if IsPrimitive(vocabulary, vt) {
        var dt :| NoStringChoice(settings, vocabulary, vt, Some(val), pick, Ok(dt))
          && Triple(v, FHIR_VALUE, Lit(PyStr(val), DatatypeIri(dt))) in t;
        assert Triple(v, FHIR_VALUE, Lit(PyStr(val), DatatypeIri(dt))) in t';
      } else {
        NodeBodyGrows(v, pred, val, valuetype, t, t');
      }
    }

    /**
     * A list element that is not an object: its literal, typed `atomType` by
     * `primitive_datatype_nostring` of the predicate's type when it has one (never `xsd:string`).
     */
    method AddListAtom(entry: Term, pred: Term, item: Json) returns (atomType: Option<Term>)
      requires g.Fresh() && BNodeBelow(entry, g.nextBNode)
      modifies g
      ensures g.nextBNode == old(g.nextBNode) && g.Fresh()
      ensures ListAtomType(pred, atomType)
      ensures PredicateType(vocabulary, pred, pick).None? ==> atomType.None?
      ensures atomType != Some(XSD_STRING)
      ensures g.triples == old(g.triples) + {Triple(entry, FHIR_VALUE, TypedLiteral(item, atomType))}
    {
      atomType := ListAtomDatatype(pred);
      Add(entry, FHIR_VALUE, TypedLiteral(item, atomType));
    }

    /** `primitive_datatype_nostring(vt) if vt else None` for the predicate's type `vt`, given no value. */
    method ListAtomDatatype(pred: Term) returns (atomType: Option<Term>)
      ensures ListAtomType(pred, atomType)
      ensures PredicateType(vocabulary, pred, pick).None? ==> atomType.None?
      ensures atomType != Some(XSD_STRING)
    {
      var vt := PredicateType(vocabulary, pred, pick);
      atomType := None;
      if vt.Some? {
        var dt := PrimitiveDatatypeNoString(settings, vocabulary, vt, None, pick);
        atomType := dt.value;
        assert NoStringChoice(settings, vocabulary, vt, None, pick, Ok(atomType));
      }
    }

    /** The contents of value node `v`: its literal when the type is primitive, else its members. */
    method FillValueNode(v: Term, pred: Term, val: Json, valuetype: Option<Term>) returns (err: Option<PyError>)
      requires Valid() && g.Fresh() && BNodeBelow(v, g.nextBNode)
      modifies this, g, uuids
      ensures Grown(old(g.triples), old(g.nextBNode), old(addlNamespaces))
      ensures IsPrimitive(vocabulary, SingularType(pred, valuetype)) && err.None? ==>
        PrimitiveHolds(v, val, SingularType(pred, valuetype), g.triples)
      ensures IsPrimitive(vocabulary, SingularType(pred, valuetype)) && err.Some? ==>
        && NoStringChoice(settings, vocabulary, SingularType(pred, valuetype), Some(val), pick, Err(err.value))
        && err == Some(TypeError) && settings.fhirDates && JsonTruthy(val) && !val.JString?
        && g.triples == old(g.triples)
      ensures IsPrimitive(vocabulary, SingularType(pred, valuetype)) && (!settings.fhirDates || !JsonTruthy(val) || val.JString?) ==>
        err.None?
      ensures !IsPrimitive(vocabulary, SingularType(pred, valuetype)) && err.None? ==>
        NodeBodyHolds(v, pred, val, valuetype, g.triples)
      decreases Size(val), 8
    {
      var vt := SingularType(pred, valuetype);
      if IsPrimitive(vocabulary, vt) {
        var dt := AddPrimitive(v, val, vt);
        if dt.Err? {
          return Some(dt.error);
        }
        assert Triple(v, FHIR_VALUE, Lit(PyStr(val), DatatypeIri(dt.value))) in g.triples;
        err := None;
      } else {
        err := AddValueNode(v, pred, val, valuetype);
      }
    }

    /** The list branch of `add_val` outside bundles: element `i` is a fresh node indexed `i`. */
    method AddValList(subj: Term, pred: Term, items: seq<Json>, valuetype: Option<Term>)
      returns (err: Option<PyError>, ghost nodes: seq<Term>)
      requires Valid() && g.Fresh() && BNodeBelow(subj, g.nextBNode)
      modifies this, g, uuids
      ensures Grown(old(g.triples), old(g.nextBNode), old(addlNamespaces))
      ensures err.None? ==>
        |nodes| == |items| && FreshInOrder(nodes, old(g.nextBNode)) && ListNodesHold(subj, pred, items, valuetype, nodes, g.triples)
      decreases Size(JArray(items)), 4
    {
      nodes := [];
      var i := 0;
      while i < |items|
        invariant 0 <= i <= |items| && |nodes| == i
        invariant Grown(old(g.triples), old(g.nextBNode), old(addlNamespaces))
        invariant FreshInOrder(nodes, old(g.nextBNode)) && forall j :: 0 <= j < i ==> nodes[j].id < g.nextBNode
        invariant ListNodesHold(subj, pred, items, valuetype, nodes, g.triples)
      {
        ItemSmaller(items, i);
        ghost var t0 := g.triples;
        ghost var entry;
        err, entry := AddValListItem(subj, pred, items[i], i, valuetype);
        if err.Some? {
          return;
        }
        ListNodesGrow(subj, pred, items, valuetype, nodes, t0, g.triples);
        ListNodesExtend(subj, pred, items, valuetype, nodes, entry, g.triples);
        FreshInOrderExtend(nodes, old(g.nextBNode), entry);
        nodes := nodes + [entry];
        i := i + 1;
      }
      err := None;
    }

    /**
     * Element `i` of a list: an object is a value node, anything else a literal typed by the
     * predicate's primitive type; the node is indexed `i` and hangs under `subj pred`.
     */
    method AddValListItem(subj: Term, pred: Term, item: Json, i: nat, valuetype: Option<Term>)
      returns (err: Option<PyError>, ghost node: Term)
      requires Valid() && g.Fresh() && BNodeBelow(subj, g.nextBNode)
      modifies this, g, uuids
      ensures Grown(old(g.triples), old(g.nextBNode), old(addlNamespaces))
      ensures node == BNode(old(g.nextBNode))
      ensures err.None? ==> Triple(node, FHIR_INDEX, IndexLiteral(i)) in g.triples && Triple(subj, pred, node) in g.triples
      ensures err.None? ==> ItemHolds(node, pred, item, valuetype, g.triples)
      decreases Size(item), 8
    {
      var entry := g.NewBNode();
      node := entry;
      Add(entry, FHIR_INDEX, IndexLiteral(i));
      ghost var t1 := g.triples;
      if item.JObject? {
        err := AddValueNode(entry, pred, item, valuetype);
        if err.Some? {
          return;
        }
      } else {
        var atomType := AddListAtom(entry, pred, item);
        assert Triple(entry, FHIR_VALUE, TypedLiteral(item, atomType)) in g.triples;
      }
      ghost var t2 := g.triples;
      assert t1 <= t2 && ItemHolds(entry, pred, item, valuetype, t2);
      Add(subj, pred, entry);
      ItemGrows(entry, pred, item, valuetype, t2, g.triples);
      err := None;
    }

    lemma ListNodesExtend(subj: Term, pred: Term, items: seq<Json>, valuetype: Option<Term>, nodes: seq<Term>, e: Term, t: Graph)
      requires ListNodesHold(subj, pred, items, valuetype, nodes, t) && |nodes| < |items|
      requires Triple(e, FHIR_INDEX, IndexLiteral(|nodes|)) in t && Triple(subj, pred, e) in t
      requires ItemHolds(e, pred, items[|nodes|], valuetype, t)
      ensures ListNodesHold(subj, pred, items, valuetype, nodes + [e], t)
    {
      IndexedNodesExtend(t, t, subj, pred, nodes, e);
    }

    /**
     * The list branch of `add_val` for `Bundle.entry`: each entry gets an indexed node naming the
     * entry's `fullUrl` as its resource; the entry's other members are added to `subj` itself;
     * then the entry's resource is mapped, under that URI, into the same graph.
     */
    method AddBundleEntries(subj: Term, pred: Term, items: seq<Json>) returns (err: Option<PyError>, ghost nodes: seq<Term>)
      requires Valid() && g.Fresh() && BNodeBelow(subj, g.nextBNode)
      modifies this, g, uuids
      ensures Grown(old(g.triples), old(g.nextBNode), old(addlNamespaces))
      ensures err.None? ==>
        |nodes| == |items| && FreshInOrder(nodes, old(g.nextBNode)) && BundleNodesHold(subj, pred, items, nodes, g.triples)
      decreases Size(JArray(items)), 4
    {
      nodes := [];
      var i := 0;
      while i < |items|
        invariant 0 <= i <= |items| && |nodes| == i
        invariant Grown(old(g.triples), old(g.nextBNode), old(addlNamespaces))
        invariant FreshInOrder(nodes, old(g.nextBNode)) && forall j :: 0 <= j < i ==> nodes[j].id < g.nextBNode
        invariant BundleNodesHold(subj, pred, items, nodes, g.triples)
      {
        ItemSmaller(items, i);
        ghost var t0 := g.triples;
        ghost var entry := BNode(g.nextBNode);
        err := AddBundleEntry(subj, pred, items[i], i);
        if err.Some? {
          return;
        }
        BundleNodesGrow(subj, pred, items, nodes, t0, g.triples);
        BundleNodesSnoc(subj, pred, items, nodes, entry, g.triples);
        FreshInOrderExtend(nodes, old(g.nextBNode), entry);
        nodes := nodes + [entry];
        i := i + 1;
      }
      err := None;
    }

    /** The node of the next entry extends the list of entry nodes. */
    lemma BundleNodesSnoc(subj: Term, pred: Term, items: seq<Json>, nodes: seq<Term>, e: Term, t: Graph)
      requires |nodes| < |items| && BundleNodesHold(subj, pred, items, nodes, t)
      requires BundleEntryHolds(subj, pred, items[|nodes|], |nodes|, e, t)
      ensures BundleNodesHold(subj, pred, items, nodes + [e], t)
    {
      assert ItemAt(items, |nodes|) == items[|nodes|];
    }

    /** Entry `i` of a bundle. */
    method AddBundleEntry(subj: Term, pred: Term, lv: Json, i: nat) returns (err: Option<PyError>)
      requires Valid() && g.Fresh() && BNodeBelow(subj, g.nextBNode)
      modifies this, g, uuids
      ensures Grown(old(g.triples), old(g.nextBNode), old(addlNamespaces))
      ensures !Has(lv, "fullUrl") ==> err == Some(AttributeError)
      ensures err.None? ==> Has(lv, "fullUrl") && Has(lv, "resource")
      ensures err.None? ==> BundleEntryHolds(subj, pred, lv, i, BNode(old(g.nextBNode)), g.triples)
      decreases Size(lv), 9
    {
      err := AddBundleEntryNode(subj, pred, lv, i);
      if err.Some? {
        return;
      }
      var entrySubj := Uri(PyStr(MemberOf(lv, "fullUrl")));
      ghost var t1 := g.triples;
      var entryPreds := Predicates(vocabulary, BUNDLE_ENTRY_COMPONENT, rank);
      err := AddMembers(subj, entryPreds, lv, ENTRY_SKIPPED);
      if err.Some? {
        return;
      }
      MembersToEntry(subj, lv, entryPreds, g.triples);
      if !Has(lv, "resource") {
        return Some(AttributeError);
      }
      var resource := MemberOf(lv, "resource");
      ghost var ns := addlNamespaces;
      ghost var t2 := g.triples;
      var nested := NewResource(vocabulary, rank, pick, settings, quote, uuids, baseUri, resource, g,
                                false, replaceNarrativeText, false, Some(entrySubj.iri));
      assert addlNamespaces == ns;
      if nested.Err? {
        return Some(nested.error);
      }
      assert t1 <= t2 <= g.triples;
      MemberGrows(BNode(old(g.nextBNode)), BUNDLE_ENTRY_FULL_URL, lv, "fullUrl", None, t1, g.triples);
      EntryMembersGrow(subj, lv, t2, g.triples);
      assert entrySubj.iri != "" ==>
        Triple(entrySubj, RDF_TYPE, Fhir(GetString(resource, "resourceType").value)) in g.triples;
      err := None;
    }

    /** The node of bundle entry `i`: its index, its `fullUrl` and the resource it names, under `subj pred`. */
    method AddBundleEntryNode(subj: Term, pred: Term, lv: Json, i: nat) returns (err: Option<PyError>)
      requires Valid() && g.Fresh() && BNodeBelow(subj, g.nextBNode)
      modifies this, g, uuids
      ensures Grown(old(g.triples), old(g.nextBNode), old(addlNamespaces))
      ensures !Has(lv, "fullUrl") ==> err == Some(AttributeError)
      ensures err.None? ==>
        && Has(lv, "fullUrl")
        && Triple(subj, pred, BNode(old(g.nextBNode))) in g.triples
        && Triple(BNode(old(g.nextBNode)), FHIR_INDEX, IndexLiteral(i)) in g.triples
        && Triple(BNode(old(g.nextBNode)), BUNDLE_ENTRY_RESOURCE, Uri(PyStr(MemberOf(lv, "fullUrl")))) in g.triples
        && MemberHolds(BNode(old(g.nextBNode)), BUNDLE_ENTRY_FULL_URL, lv, "fullUrl", None, g.triples)
      decreases Size(lv), 8
    {
      var entry := g.NewBNode();
      if !Has(lv, "fullUrl") {
        return Some(AttributeError);
      }
      var entrySubj := Uri(PyStr(MemberOf(lv, "fullUrl")));
      Add(entry, FHIR_INDEX, IndexLiteral(i));
      ghost var t1 := g.triples;
      var r, _ := AddVal(entry, BUNDLE_ENTRY_FULL_URL, lv, "fullUrl", None);
      if r.Err? {
        return Some(r.error);
      }
      assert t1 <= g.triples;
      ghost var t2 := g.triples;
      Add(entry, BUNDLE_ENTRY_RESOURCE, entrySubj);
      Add(subj, pred, entry);
      MemberGrows(entry, BUNDLE_ENTRY_FULL_URL, lv, "fullUrl", None, t2, g.triples);
      err := None;
    }

    /** `for k, p in preds.items(): if k in jsonObj: add_val(subj, p, jsonObj, k)`, skipping `exclude`. */
    method AddMembers(subj: Term, preds: map<string, Term>, jsonObj: Json, exclude: set<string>)
      returns (err: Option<PyError>)
      requires Valid() && g.Fresh() && BNodeBelow(subj, g.nextBNode)
      modifies this, g, uuids
      ensures Grown(old(g.triples), old(g.nextBNode), old(addlNamespaces))
      ensures err.None? ==> MembersHold(subj, preds, jsonObj, exclude, preds.Keys, g.triples)
      decreases Size(jsonObj), 5
    {
      var keys := preds.Keys;
      while keys != {}
        invariant keys <= preds.Keys
        invariant Grown(old(g.triples), old(g.nextBNode), old(addlNamespaces))
        invariant MembersHold(subj, preds, jsonObj, exclude, preds.Keys - keys, g.triples)
        decreases keys
      {
        var k :| k in keys;
        ghost var t0 := g.triples;
        ghost var done := preds.Keys - keys;
        keys := keys - {k};
        if k !in exclude && Has(jsonObj, k) {
          var r, _ := AddVal(subj, preds[k], jsonObj, k, None);
          if r.Err? {
            return Some(r.error);
          }
          MembersGrow(subj, preds, jsonObj, exclude, done, t0, g.triples);
        }
        assert preds.Keys - keys == done + {k};
      }
      err := None;
    }

    /** Each member of `done` that `add_resource`'s loop maps is in `t`. */
    ghost predicate MembersHold(subj: Term, preds: map<string, Term>, jsonObj: Json, exclude: set<string>,
                                done: set<string>, t: Graph)
    {
      forall k :: k in done && k in preds && k !in exclude && Has(jsonObj, k) ==> MemberHolds(subj, preds[k], jsonObj, k, None, t)
    }

    lemma MembersGrow(subj: Term, preds: map<string, Term>, jsonObj: Json, exclude: set<string>,
                      done: set<string>, t: Graph, t': Graph)
      requires t <= t' && MembersHold(subj, preds, jsonObj, exclude, done, t)
      ensures MembersHold(subj, preds, jsonObj, exclude, done, t')
    {
      forall k | k in done && k in preds && k !in exclude && Has(jsonObj, k)
        ensures MemberHolds(subj, preds[k], jsonObj, k, None, t')
      {
        MemberGrows(subj, preds[k], jsonObj, k, None, t, t');
      }
    }

    /**
     * `add_value_node`: `val` mapped by the properties of its type. A present member is added
     * (and a coding types `subj`); the `value` property of an `Element` takes every `value[x]`
     * member, typed by its suffix; any other property may still carry an extension.
     */
    method AddValueNode(subj: Term, pred: Term, val: Json, valuetype: Option<Term>) returns (err: Option<PyError>)
      requires Valid() && g.Fresh() && BNodeBelow(subj, g.nextBNode)
      modifies this, g, uuids
      ensures Grown(old(g.triples), old(g.nextBNode), old(addlNamespaces))
      ensures NodeType(pred, val, valuetype).Err? ==>
        err == Some(NodeType(pred, val, valuetype).error) && Same(old(g.triples), old(g.nextBNode), old(addlNamespaces))
      ensures err.None? ==> NodeBodyHolds(subj, pred, val, valuetype, g.triples)
      decreases Size(val), 7
    {
      var nt := NodeType(pred, val, valuetype);
      if nt.Err? {
        return Some(nt.error);
      }
      var preds := Predicates(vocabulary, nt.value, rank);
      err := AddValueNodeMembers(subj, pred, val, preds);
      if err.Some? {
        return;
      }
      EffectsToBody(subj, pred, val, valuetype, preds, g.triples);
      err := None;
    }

    /** The loop of `add_value_node`: every property of `preds`, in no particular order. */
    method AddValueNodeMembers(subj: Term, pred: Term, val: Json, preds: map<string, Term>) returns (err: Option<PyError>)
      requires Valid() && g.Fresh() && BNodeBelow(subj, g.nextBNode)
      modifies this, g, uuids
      ensures Grown(old(g.triples), old(g.nextBNode), old(addlNamespaces))
      ensures err.None? ==> EffectsHold(subj, pred, val, preds, preds.Keys, g.triples)
      decreases Size(val), 7, 0
    {
      var keys := preds.Keys;
      while keys != {}
        invariant keys <= preds.Keys
        invariant Grown(old(g.triples), old(g.nextBNode), old(addlNamespaces))
        invariant EffectsHold(subj, pred, val, preds, preds.Keys - keys, g.triples)
        decreases keys
      {
        var k :| k in keys;
        ghost var t0 := g.triples;
        ghost var done := preds.Keys - keys;
        keys := keys - {k};
        err := AddValueNodeMember(subj, pred, val, k, preds[k]);
        if err.Some? {
          return;
        }
        EffectsStep(subj, pred, val, preds, done, k, t0, g.triples);
        assert preds.Keys - keys == done + {k};
      }
      err := None;
    }

    /** Each tag of `done` had its effect on value node `subj` in `t`. */
    ghost predicate EffectsHold(subj: Term, pred: Term, val: Json, preds: map<string, Term>, done: set<string>, t: Graph) {
      forall k :: k in done && k in preds ==> MemberEffect(subj, pred, val, k, preds[k], t)
    }

    lemma EffectsGrow(subj: Term, pred: Term, val: Json, preds: map<string, Term>, done: set<string>, t: Graph, t': Graph)
      requires t <= t' && EffectsHold(subj, pred, val, preds, done, t)
      ensures EffectsHold(subj, pred, val, preds, done, t')
    {
      forall k | k in done && k in preds ensures MemberEffect(subj, pred, val, k, preds[k], t') {
        MemberEffectGrows(subj, pred, val, k, preds[k], t, t');
      }
    }

    /** One more tag had its effect, and the earlier ones keep theirs. */
    lemma EffectsStep(subj: Term, pred: Term, val: Json, preds: map<string, Term>, done: set<string>, k: string, t: Graph, t': Graph)
      requires t <= t' && EffectsHold(subj, pred, val, preds, done, t)
      requires k in preds && MemberEffect(subj, pred, val, k, preds[k], t')
      ensures EffectsHold(subj, pred, val, preds, done + {k}, t')
    {
      EffectsGrow(subj, pred, val, preds, done, t, t');
    }

    /** The loop of `add_value_node` over all of `predicates()` gives the node's body. */
    lemma EffectsToBody(subj: Term, pred: Term, val: Json, valuetype: Option<Term>, preds: map<string, Term>, t: Graph)
      requires Acyclic(vocabulary, rank) && NodeType(pred, val, valuetype).Ok?
      requires var nt := NodeType(pred, val, valuetype).value;
        && preds.Keys == TagsOf(AllPredicates(vocabulary, nt, rank), Tag)
        && Tagged(preds, AllPredicates(vocabulary, nt, rank), Tag) && OwnWins(preds, OwnPredicates(vocabulary, nt), Tag)
      requires EffectsHold(subj, pred, val, preds, preds.Keys, t)
      ensures NodeBodyHolds(subj, pred, val, valuetype, t)
    {
      var nt := NodeType(pred, val, valuetype).value;
      forall k | k in TagsOf(AllPredicates(vocabulary, nt, rank), Tag)
        ensures exists p :: PredicateFor(nt, k, p) && MemberEffect(subj, pred, val, k, p, t)
      {
        assert PredicateFor(nt, k, preds[k]) && MemberEffect(subj, pred, val, k, preds[k], t);
      }
    }

    /** One property `k` (as `p`) of the loop of `add_value_node`. */
    method AddValueNodeMember(subj: Term, pred: Term, val: Json, k: string, p: Term) returns (err: Option<PyError>)
      requires Valid() && g.Fresh() && BNodeBelow(subj, g.nextBNode)
      modifies this, g, uuids
      ensures Grown(old(g.triples), old(g.nextBNode), old(addlNamespaces))
      ensures err.None? ==> MemberEffect(subj, pred, val, k, p, g.triples)
      decreases Size(val), 6
    {
      if Has(val, k) {
        err := AddPresentMember(subj, pred, val, k, p);
        if err.Some? {
          return;
        }
      } else if k == "value" && PredicateType(vocabulary, p, pick) == Some(FHIR_ELEMENT) {
        err := AddValueChoices(subj, val);
        if err.Some? {
          return;
        }
      } else {
        ghost var extNodes;
        err, extNodes := AddExtensionVal(subj, val, k, Some(p));
        if err.Some? {
          return;
        }
      }
      err := None;
    }

    /** A member `val` holds: mapped by `add_val`, and a coding's node typed by `add_type_arc`. */
    method AddPresentMember(subj: Term, pred: Term, val: Json, k: string, p: Term) returns (err: Option<PyError>)
      requires Valid() && g.Fresh() && BNodeBelow(subj, g.nextBNode) && Has(val, k)
      modifies this, g, uuids
      ensures Grown(old(g.triples), old(g.nextBNode), old(addlNamespaces))
      ensures err.None? ==> MemberEffect(subj, pred, val, k, p, g.triples)
      decreases Size(val), 6, 0
    {
      var r, _ := AddVal(subj, p, val, k, None);
      if r.Err? {
        return Some(r.error);
      }
      if pred == FhirGraphUtils.CODEABLE_CONCEPT_CODING {
        ghost var t1 := g.triples;
        CodingTypeAnyMap(val, addlNamespaces);
        err := AddTypeArc(subj, val);
        if err.Some? {
          return;
        }
        MemberGrows(subj, p, val, k, None, t1, g.triples);
      }
      err := None;
    }

    /** Every `value[x]` member of `val` as `Extension.value[x]`, typed by `value_predicate_to_type`. */
    method AddValueChoices(subj: Term, val: Json) returns (err: Option<PyError>)
      requires Valid() && g.Fresh() && BNodeBelow(subj, g.nextBNode)
      modifies this, g, uuids
      ensures Grown(old(g.triples), old(g.nextBNode), old(addlNamespaces))
      ensures err.None? ==> ChoicesHold(subj, val, Keys(val), g.triples)
      decreases Size(val), 5
    {
      var ks := Keys(val);
      var i := 0;
      while i < |ks|
        invariant 0 <= i <= |ks|
        invariant Grown(old(g.triples), old(g.nextBNode), old(addlNamespaces))
        invariant ChoicesHold(subj, val, ks[..i], g.triples)
      {
        ghost var t0 := g.triples;
        err := AddValueChoice(subj, val, ks[i]);
        if err.Some? {
          return;
        }
        ChoicesStep(subj, val, ks, i, t0, g.triples);
        i := i + 1;
      }
      assert ks[..i] == ks;
      err := None;
    }

    /** One key of the loop of `add_value_node` over `value[x]`: skipped unless it starts with `value`. */
    method AddValueChoice(subj: Term, val: Json, k: string) returns (err: Option<PyError>)
      requires Valid() && g.Fresh() && BNodeBelow(subj, g.nextBNode)
      modifies this, g, uuids
      ensures Grown(old(g.triples), old(g.nextBNode), old(addlNamespaces))
      ensures !StartsWith(k, "value") ==> err.None? && Same(old(g.triples), old(g.nextBNode), old(addlNamespaces))
      ensures StartsWith(k, "value") && ValuePredicateToType(vocabulary, k).Err? ==>
        err == Some(ValuePredicateToType(vocabulary, k).error) && Same(old(g.triples), old(g.nextBNode), old(addlNamespaces))
      ensures err.None? && StartsWith(k, "value") ==>
        && ValuePredicateToType(vocabulary, k).Ok?
        && MemberHolds(subj, Fhir("Extension." + k), val, k, Some(ValuePredicateToType(vocabulary, k).value), g.triples)
      decreases Size(val), 5, 0
    {
      if StartsWith(k, "value") {
        var t := ValuePredicateToType(vocabulary, k);
        if t.Err? {
          return Some(t.error);
        }
        var r, _ := AddVal(subj, Fhir("Extension." + k), val, k, Some(t.value));
        if r.Err? {
          return Some(r.error);
        }
      }
      err := None;
    }

    /**
     * `add_extension_val`: the `_key` member of `jsonObj`, if any, holds extensions of the node
     * `subj`. Only a blank node can be extended; a list of extensions needs `pred` (without it
     * the source raises by calling `NotImplemented`, a TypeError); an object holding only
     * `fhir_comments` is dropped; any other object's `extension` member is added.
     */
    method AddExtensionVal(subj: Term, jsonObj: Json, key: string, pred: Option<Term>)
      returns (err: Option<PyError>, ghost nodes: seq<Term>)
      requires Valid() && g.Fresh() && BNodeBelow(subj, g.nextBNode)
      modifies this, g, uuids
      ensures Grown(old(g.triples), old(g.nextBNode), old(addlNamespaces))
      ensures !Has(jsonObj, "_" + key) ==> err.None? && Same(old(g.triples), old(g.nextBNode), old(addlNamespaces))
      ensures Has(jsonObj, "_" + key) && !subj.BNode? ==>
        err == Some(NotImplementedError) && Same(old(g.triples), old(g.nextBNode), old(addlNamespaces))
      ensures Has(jsonObj, "_" + key) && subj.BNode? && MemberOf(jsonObj, "_" + key).JArray? && pred.None? ==>
        err == Some(TypeError) && Same(old(g.triples), old(g.nextBNode), old(addlNamespaces))
      ensures Has(jsonObj, "_" + key) && subj.BNode? && CommentsOnly(MemberOf(jsonObj, "_" + key)) ==>
        err.None? && Same(old(g.triples), old(g.nextBNode), old(addlNamespaces))
      ensures Has(jsonObj, "_" + key) && subj.BNode? && MemberOf(jsonObj, "_" + key).JArray? && pred.Some? && err.None? ==>
        && |nodes| == |MemberOf(jsonObj, "_" + key).items|
        && FreshInOrder(nodes, old(g.nextBNode))
        && ExtNodesHold(subj, pred.value, MemberOf(jsonObj, "_" + key).items, nodes, g.triples)
      ensures err.None? ==> ExtensionHolds(subj, jsonObj, key, pred, g.triples)
      decreases Size(jsonObj), 1
    {
      nodes := [];
      var extendee := "_" + key;
      if !Has(jsonObj, extendee) {
        return None, nodes;
      }
      if !subj.BNode? {
        return Some(NotImplementedError), nodes;
      }
      var ext := MemberOf(jsonObj, extendee);
      if ext.JArray? {
        if pred.None? {
          return Some(TypeError), nodes;
        }
        err, nodes := AddExtensionList(subj, pred.value, ext.items);
      } else if CommentsOnly(ext) {
        err := None;
      } else {
        var r, _ := AddVal(subj, FhirGraphUtils.ELEMENT_EXTENSION, ext, "extension", None);
        err := if r.Err? then Some(r.error) else None;
      }
    }

    /** The list form of `add_extension_val`: extension `i` under a fresh node indexed `i`. */
    method AddExtensionList(subj: Term, pred: Term, items: seq<Json>) returns (err: Option<PyError>, ghost nodes: seq<Term>)
      requires Valid() && g.Fresh() && BNodeBelow(subj, g.nextBNode)
      modifies this, g, uuids
      ensures Grown(old(g.triples), old(g.nextBNode), old(addlNamespaces))
      ensures err.None? ==>
        |nodes| == |items| && FreshInOrder(nodes, old(g.nextBNode)) && ExtNodesHold(subj, pred, items, nodes, g.triples)
      decreases Size(JArray(items)), 4
    {
      nodes := [];
      var i := 0;
      while i < |items|
        invariant 0 <= i <= |items| && |nodes| == i
        invariant Grown(old(g.triples), old(g.nextBNode), old(addlNamespaces))
        invariant FreshInOrder(nodes, old(g.nextBNode)) && forall j :: 0 <= j < i ==> nodes[j].id < g.nextBNode
        invariant ExtNodesHold(subj, pred, items, nodes, g.triples)
      {
        ItemSmaller(items, i);
        ghost var t0 := g.triples;
        ghost var entry;
        err, entry := AddExtensionItem(subj, pred, items[i], i);
        if err.Some? {
          return;
        }
        ExtNodesGrow(subj, pred, items, nodes, t0, g.triples);
        ExtNodesExtend(subj, pred, items, nodes, entry, g.triples);
        FreshInOrderExtend(nodes, old(g.nextBNode), entry);
        nodes := nodes + [entry];
        i := i + 1;
      }
      err := None;
    }

    /** Extension `i` of a list: its `extension` member under a fresh node indexed `i`, under `subj pred`. */
    method AddExtensionItem(subj: Term, pred: Term, item: Json, i: nat) returns (err: Option<PyError>, ghost node: Term)
      requires Valid() && g.Fresh() && BNodeBelow(subj, g.nextBNode)
      modifies this, g, uuids
      ensures Grown(old(g.triples), old(g.nextBNode), old(addlNamespaces))
      ensures node == BNode(old(g.nextBNode))
      ensures err.None? ==> Triple(node, FHIR_INDEX, IndexLiteral(i)) in g.triples && Triple(subj, pred, node) in g.triples
      ensures err.None? ==> MemberHolds(node, FhirGraphUtils.ELEMENT_EXTENSION, item, "extension", None, g.triples)
      decreases Size(item), 5
    {
      var entry := g.NewBNode();
      node := entry;
      Add(entry, FHIR_INDEX, IndexLiteral(i));
      ghost var t1 := g.triples;
      var r, _ := AddVal(entry, FhirGraphUtils.ELEMENT_EXTENSION, item, "extension", None);
      if r.Err? {
        return Some(r.error), node;
      }
      ghost var t2 := g.triples;
      assert t1 <= t2;
      Add(subj, pred, entry);
      MemberGrows(entry, FhirGraphUtils.ELEMENT_EXTENSION, item, "extension", None, t2, g.triples);
      err := None;
    }

    lemma ExtNodesExtend(subj: Term, pred: Term, items: seq<Json>, nodes: seq<Term>, e: Term, t: Graph)
      requires ExtNodesHold(subj, pred, items, nodes, t) && |nodes| < |items|
      requires Triple(e, FHIR_INDEX, IndexLiteral(|nodes|)) in t && Triple(subj, pred, e) in t
      requires MemberHolds(e, FhirGraphUtils.ELEMENT_EXTENSION, items[|nodes|], "extension", None, t)
      ensures ExtNodesHold(subj, pred, items, nodes + [e], t)
    {
      IndexedNodesExtend(t, t, subj, pred, nodes, e);
    }

    /** `add_resource`: `subj` typed by the resource type, then every member the type defines. */
    method AddResource(subj: Term, jsonObj: Json) returns (err: Option<PyError>)
      requires Valid() && g.Fresh() && BNodeBelow(subj, g.nextBNode)
      modifies this, g, uuids
      ensures Grown(old(g.triples), old(g.nextBNode), old(addlNamespaces))
      ensures !Has(jsonObj, "resourceType") ==>
        err == Some(AttributeError) && Same(old(g.triples), old(g.nextBNode), old(addlNamespaces))
      ensures Has(jsonObj, "resourceType") && GetString(jsonObj, "resourceType").None? ==>
        err == Some(TypeError) && Same(old(g.triples), old(g.nextBNode), old(addlNamespaces))
      ensures GetString(jsonObj, "resourceType").Some? ==>
        Triple(subj, RDF_TYPE, Fhir(GetString(jsonObj, "resourceType").value)) in g.triples
      ensures err.None? ==> ResourceHolds(subj, jsonObj, g.triples)
      decreases Size(jsonObj), 6
    {
      if !Has(jsonObj, "resourceType") {
        return Some(AttributeError);
      }
      var rt := GetString(jsonObj, "resourceType");
      if rt.None? {
        return Some(TypeError);
      }
      Add(subj, RDF_TYPE, Fhir(rt.value));
      var preds := Predicates(vocabulary, Fhir(resourceType), rank);
      err := AddMembers(subj, preds, jsonObj, {});
      if err.None? {
        MembersToResource(subj, jsonObj, preds, g.triples);
      }
    }

    /** The loop over the entry type's `predicates()` maps the entry's members onto the bundle. */
    lemma MembersToEntry(subj: Term, lv: Json, preds: map<string, Term>, t: Graph)
      requires Acyclic(vocabulary, rank)
      requires preds.Keys == TagsOf(AllPredicates(vocabulary, BUNDLE_ENTRY_COMPONENT, rank), Tag)
      requires Tagged(preds, AllPredicates(vocabulary, BUNDLE_ENTRY_COMPONENT, rank), Tag)
      requires OwnWins(preds, OwnPredicates(vocabulary, BUNDLE_ENTRY_COMPONENT), Tag)
      requires MembersHold(subj, preds, lv, ENTRY_SKIPPED, preds.Keys, t)
      ensures EntryMembersHold(subj, lv, t)
    {
      forall k | k in TagsOf(AllPredicates(vocabulary, BUNDLE_ENTRY_COMPONENT, rank), Tag)
                 && k !in ENTRY_SKIPPED && Has(lv, k)
        ensures exists p :: PredicateFor(BUNDLE_ENTRY_COMPONENT, k, p) && MemberHolds(subj, p, lv, k, None, t)
      {
        assert PredicateFor(BUNDLE_ENTRY_COMPONENT, k, preds[k]) && MemberHolds(subj, preds[k], lv, k, None, t);
      }
    }

    /** The loop of `add_resource` over all of `predicates()` maps the resource's members. */
    lemma MembersToResource(subj: Term, jsonObj: Json, preds: map<string, Term>, t: Graph)
      requires Acyclic(vocabulary, rank)
      requires preds.Keys == TagsOf(AllPredicates(vocabulary, Fhir(resourceType), rank), Tag)
      requires Tagged(preds, AllPredicates(vocabulary, Fhir(resourceType), rank), Tag)
      requires OwnWins(preds, OwnPredicates(vocabulary, Fhir(resourceType)), Tag)
      requires MembersHold(subj, preds, jsonObj, {}, preds.Keys, t)
      ensures ResourceHolds(subj, jsonObj, t)
    {
      forall k | k in TagsOf(AllPredicates(vocabulary, Fhir(resourceType), rank), Tag)
        ensures exists p :: PredicateFor(Fhir(resourceType), k, p) && MemberHolds(subj, p, jsonObj, k, None, t)
      {
        assert PredicateFor(Fhir(resourceType), k, preds[k]) && MemberHolds(subj, preds[k], jsonObj, k, None, t);
      }
    }

    /**
     * `generate`: a root resource first gets the ontology header (when asked for) and the
     * `fhir:nodeRole fhir:treeRoot` arc; then the resource itself is added. Only a version id that
     * is not a string stops the header, after its first two triples; otherwise the root arc and
     * the type triple are added whatever the members do.
     */
    method Generate(isRoot: bool) returns (err: Option<PyError>)
      requires Valid() && g.Fresh()
      modifies this, g, uuids
      ensures Grown(old(g.triples), old(g.nextBNode), old(addlNamespaces))
      ensures isRoot && addOntologyHeader ==> OntologyTriples(resourceUri, VersionText(root)) <= g.triples
      ensures isRoot && addOntologyHeader && BadVersion(root) ==> err == Some(TypeError)
      ensures !(isRoot && addOntologyHeader && BadVersion(root)) ==>
        && Triple(Uri(resourceUri), RDF_TYPE, Fhir(resourceType)) in g.triples
        && (isRoot ==> Triple(Uri(resourceUri), FHIR_NODE_ROLE, FHIR_TREE_ROOT) in g.triples)
      ensures err.None? ==> ResourceHolds(Uri(resourceUri), root, g.triples)
      decreases Size(root), 7, 0
    {
      if isRoot {
        if addOntologyHeader {
          err := AddOntologyDefinition();
          if err.Some? {
            return;
          }
        }
        Add(Uri(resourceUri), FHIR_NODE_ROLE, FHIR_TREE_ROOT);
      }
      err := AddResource(Uri(resourceUri), root);
    }
  }

  /**
   * The document `FHIRResource(...)` maps and its subject: `resourceUri` when one is given;
   * otherwise the base, the type, '/' and the id, a document without an id first getting one
   * from `uuid4`. A type or id that is not a string fails the concatenation.
   */
  method ResourceSubject(base: string, data: Json, resourceUri: Option<string>, uuids: Uuids)
    returns (root: Json, subject: Result<string, PyError>)
    requires Has(data, "resourceType")
    modifies uuids
    ensures Size(root) <= Size(data) + 1
    ensures VersionId(root) == VersionId(data) && GetString(root, "resourceType") == GetString(data, "resourceType")
    ensures resourceUri.Some? && resourceUri.value != "" ==> root == data && subject == Ok(resourceUri.value)
    ensures resourceUri.None? || resourceUri.value == "" ==>
      && (Has(data, "id") ==> root == data)
      && (!Has(data, "id") ==> root == With(data, "id", JString(uuids.ids(old(uuids.drawn)))))
      && (subject.Ok? <==> GetString(data, "resourceType").Some? && GetString(root, "id").Some?)
      && (subject.Err? ==> subject.error == TypeError)
      && (subject.Ok? ==> subject.value == base + GetString(root, "resourceType").value + "/" + GetString(root, "id").value)
  {
    root := data;
    if resourceUri.Some? && resourceUri.value != "" {
      return root, Ok(resourceUri.value);
    }
    if !Has(data, "id") {
      var id := uuids.Uuid4();
      WithSize(data, "id", JString(id));
      root := With(data, "id", JString(id));
    }
    var rt, id := GetString(root, "resourceType"), GetString(root, "id");
    if rt.None? || id.None? {
      return root, Err(TypeError);
    }
    subject := Ok(base + rt.value + "/" + id.value);
  }

  /** The resource object over `target`, or over a new empty graph when there is none. */
  method ResourceOver(vocabulary: Graph, ghost rank: Term -> nat, pick: Chooser, settings: Settings,
                      quote: string -> string, uuids: Uuids, root: Json, baseUri: string, resourceUri: string,
                      resourceType: string, target: GraphStore?, addOntologyHeader: bool, replaceNarrativeText: bool)
    returns (res: FhirResource)
    ensures fresh(res) && (if target == null then fresh(res.g) && res.g.triples == {} && res.g.nextBNode == 0 else res.g == target)
    ensures res.vocabulary == vocabulary && res.rank == rank && res.pick == pick
    ensures res.settings == settings && res.quote == quote && res.uuids == uuids
    ensures res.root == root && res.baseUri == baseUri && res.resourceUri == resourceUri
    ensures res.resourceType == resourceType
    ensures res.addOntologyHeader == addOntologyHeader && res.replaceNarrativeText == replaceNarrativeText
    ensures res.addlNamespaces == map[]
  {
    var g: GraphStore;
    if target == null {
      g := new GraphStore();
    } else {
      g := target;
    }
    res := new FhirResource(vocabulary, rank, pick, settings, quote, uuids, root, baseUri, resourceUri, resourceType, g,
                            addOntologyHeader, replaceNarrativeText);
  }

  /**
   * `FHIRResource(...)`: maps `data` into `target` (a new graph when there is none). An empty base
   * is an IndexError and a document without `resourceType` a ValueError, both before any triple
   * is added. The subject is `resourceUri` when one is given; otherwise it is the slashed base,
   * the type, '/' and the id, and a document without an id first gets one from `uuid4`.
   */
  method NewResource(vocabulary: Graph, ghost rank: Term -> nat, pick: Chooser, settings: Settings,
                     quote: string -> string, uuids: Uuids, baseUri: string, data: Json, target: GraphStore?,
                     addOntologyHeader: bool, replaceNarrativeText: bool, isRoot: bool, resourceUri: Option<string>)
    returns (r: Result<FhirResource, PyError>)
    requires Acyclic(vocabulary, rank)
    requires target != null ==> target.Fresh()
    modifies target, uuids
    ensures baseUri == "" ==> r == Err(IndexError)
    ensures baseUri != "" && !Has(data, "resourceType") ==> r == Err(ValueError)
    ensures target != null && (baseUri == "" || !Has(data, "resourceType")) ==> target.triples == old(target.triples)
    ensures target != null ==>
      old(target.triples) <= target.triples && old(target.nextBNode) <= target.nextBNode && target.Fresh()
    ensures r.Ok? ==> r.value.Valid() && r.value.baseUri == SlashedBase(baseUri)
    ensures r.Ok? ==> GetString(data, "resourceType") == Some(r.value.resourceType)
    ensures r.Ok? ==>
      && r.value.vocabulary == vocabulary && r.value.addOntologyHeader == addOntologyHeader
      && r.value.replaceNarrativeText == replaceNarrativeText
    ensures r.Ok? ==> if target == null then fresh(r.value.g) else r.value.g == target
    ensures r.Ok? && resourceUri.Some? && resourceUri.value != "" ==>
      r.value.resourceUri == resourceUri.value && r.value.root == data
    ensures r.Ok? && (resourceUri.None? || resourceUri.value == "") ==>
      && (Has(data, "id") ==> r.value.root == data)
      && (!Has(data, "id") ==> r.value.root == With(data, "id", JString(uuids.ids(old(uuids.drawn)))))
      && GetString(r.value.root, "id").Some?
      && r.value.resourceUri == r.value.baseUri + r.value.resourceType + "/" + GetString(r.value.root, "id").value
    ensures r.Ok? ==> Triple(Uri(r.value.resourceUri), RDF_TYPE, Fhir(r.value.resourceType)) in r.value.g.triples
    ensures r.Ok? && isRoot ==> Triple(Uri(r.value.resourceUri), FHIR_NODE_ROLE, FHIR_TREE_ROOT) in r.value.g.triples
    ensures r.Ok? && isRoot && addOntologyHeader ==>
      OntologyTriples(r.value.resourceUri, VersionText(r.value.root)) <= r.value.g.triples
    ensures r.Ok? ==> r.value.ResourceHolds(Uri(r.value.resourceUri), r.value.root, r.value.g.triples)
    ensures baseUri != "" && GetString(data, "resourceType").Some? && isRoot && addOntologyHeader && BadVersion(data) ==>
      r == Err(TypeError)
    decreases Size(data) + 1, 8
  {
    if baseUri == "" {
      return Err(IndexError);
    }
    var base := SlashedBase(baseUri);
    if !Has(data, "resourceType") {
      return Err(ValueError);
    }
    var root, subject := ResourceSubject(base, data, resourceUri, uuids);
    if subject.Err? {
      return Err(subject.error);
    }
    var rt := GetString(root, "resourceType");
    if rt.None? {
      return Err(TypeError);
    }
    r := GenerateOver(vocabulary, rank, pick, settings, quote, uuids, root, base, subject.value, rt.value, target,
                      addOntologyHeader, replaceNarrativeText, isRoot);
  }

  /** The resource object over `target` (or a new graph), generated. */
  method GenerateOver(vocabulary: Graph, ghost rank: Term -> nat, pick: Chooser, settings: Settings,
                      quote: string -> string, uuids: Uuids, root: Json, baseUri: string, resourceUri: string,
                      resourceType: string, target: GraphStore?, addOntologyHeader: bool, replaceNarrativeText: bool,
                      isRoot: bool)
    returns (r: Result<FhirResource, PyError>)
    requires Acyclic(vocabulary, rank) && GetString(root, "resourceType") == Some(resourceType)
    requires EndsWith(baseUri, "/") || EndsWith(baseUri, "#")
    requires target != null ==> target.Fresh()
    modifies target, uuids
    ensures target != null ==>
      old(target.triples) <= target.triples && old(target.nextBNode) <= target.nextBNode && target.Fresh()
    ensures isRoot && addOntologyHeader && BadVersion(root) ==> r == Err(TypeError)
    ensures r.Ok? ==> r.value.Valid() && (if target == null then fresh(r.value.g) else r.value.g == target)
    ensures r.Ok? ==>
      && r.value.vocabulary == vocabulary && r.value.addOntologyHeader == addOntologyHeader
      && r.value.replaceNarrativeText == replaceNarrativeText && r.value.root == root
      && r.value.baseUri == baseUri && r.value.resourceUri == resourceUri && r.value.resourceType == resourceType
    ensures r.Ok? ==> Triple(Uri(resourceUri), RDF_TYPE, Fhir(resourceType)) in r.value.g.triples
    ensures r.Ok? && isRoot ==> Triple(Uri(resourceUri), FHIR_NODE_ROLE, FHIR_TREE_ROOT) in r.value.g.triples
    ensures r.Ok? && isRoot && addOntologyHeader ==> OntologyTriples(resourceUri, VersionText(root)) <= r.value.g.triples
    ensures r.Ok? ==> r.value.ResourceHolds(Uri(r.value.resourceUri), r.value.root, r.value.g.triples)
    decreases Size(root), 7, 1
  {
    var res := ResourceOver(vocabulary, rank, pick, settings, quote, uuids, root, baseUri, resourceUri, resourceType, target,
                            addOntologyHeader, replaceNarrativeText);
    var err := res.Generate(isRoot);
    if err.Some? {
      return Err(err.value);
    }
    return Ok(res);
  }
}
