/**
 * Queries over a FHIR RDF graph: the value of a property (looking through value nodes), the
 * value of an extension, the code or concept URI of a codeable concept, and links.
 */
module FhirGraphUtils {
  import opened Wrappers
  import opened Strings
  import opened Rdf
  import opened Errors

  const ELEMENT_EXTENSION: Term := Fhir("Element.extension")
  const EXTENSION_URL: Term := Fhir("Extension.url")
  const CODEABLE_CONCEPT_CODING: Term := Fhir("CodeableConcept.coding")
  const CODING_SYSTEM: Term := Fhir("Coding.system")
  const CODING_CODE: Term := Fhir("Coding.code")

  /**
   * What `value` hands back: nothing, an RDF term, or a literal converted to a Python value
   * (`toPython`). The conversion itself is not modelled; the literal is kept.
   */
  datatype Val = NoVal | TermVal(t: Term) | PyVal(lit: Term)

  /** `toPython` on a term: literals are converted, other terms stay as they are. */
  function Converted(t: Term): (r: Val)
    ensures r != NoVal
    ensures t.Lit? <==> r.PyVal?
  {
    if t.Lit? then PyVal(t) else TermVal(t)
  }

  /** The term a non-empty result stands for. */
  function TermOf(v: Val): Option<Term> {
    match v
    case NoVal => None
    case TermVal(t) => Some(t)
    case PyVal(lit) => Some(lit)
  }

  /**
   * The datatypes whose literals `toPython` turns into a `str` holding the lexical form, besides
   * plain literals.
   */
  const STRING_DATATYPES: set<string> :=
    {XSD_NS + "string", XSD_NS + "normalizedString", XSD_NS + "token", XSD_NS + "language", XSD_NS + "anyURI"}

  /**
   * `v == s` for a Python string `s`: only a literal that converts to a `str` (a plain one, or one
   * of `STRING_DATATYPES`) can equal it; a URIRef never equals a plain string.
   */
  predicate EqualsStr(v: Val, s: string) {
    v.PyVal? && v.lit.Lit? && (v.lit.dtype.None? || v.lit.dtype.value in STRING_DATATYPES) && v.lit.lex == s
  }

  /** Truth value of a result: nothing is false, and so is a term with empty text. */
  predicate Truthy(v: Val) {
    v != NoVal && Text(TermOf(v).value) != ""
  }

  predicate TermTruthy(t: Option<Term>) {
    t.Some? && Text(t.value) != ""
  }

  /** The element of a one-element set. */
  function TheOne<T>(s: set<T>): (x: T)
    requires |s| == 1
    ensures s == {x}
  {
    var x :| x in s;
    assert |s - {x}| == 0;
    assert s == {x} by {
      assert s - {x} == {};
    }
    x
  }

  /** `g.value(v, fhir:value)` for every `v` of `values`. */
  function ValuesOfNodes(g: Graph, values: set<Term>, pick: Chooser): (r: set<Option<Term>>)
    ensures forall w :: w in r <==> exists v :: v in values && w == Value(g, v, FHIR_VALUE, pick)
  {
    set v | v in values :: Value(g, v, FHIR_VALUE, pick)
  }

  /**
   * `value`: the single object of (subject, predicate). When every object is a blank node (and
   * the predicate is not `fhir:value` itself) the objects' own `fhir:value`s are taken instead.
   * More than one distinct result is a UniquenessError, except that a missing inner value among
   * several makes the error message fail first, with TypeError. A literal is converted unless
   * `asLiteral` is set; converting a missing inner value is an AttributeError.
   */
  function ValueOf(g: Graph, subject: Term, pred: Term, asLiteral: bool, pick: Chooser): (r: Result<Val, PyError>)
    ensures Objects(g, subject, pred) == {} ==> r == Ok(NoVal)
    ensures var values := Objects(g, subject, pred);
      (values != {} && (forall v :: v in values ==> v.BNode?) && pred != FHIR_VALUE) ==>
        var vv := ValuesOfNodes(g, values, pick);
        && (|vv| > 1 && None in vv ==> r == Err(TypeError))
        && (|vv| > 1 && None !in vv ==> r == Err(UniquenessError))
        && (vv == {None} ==> r == if asLiteral then Ok(NoVal) else Err(AttributeError))
        && (forall w :: vv == {Some(w)} ==> r == if asLiteral then Ok(TermVal(w)) else Ok(Converted(w)))
    ensures var values := Objects(g, subject, pred);
      (values != {} && !((forall v :: v in values ==> v.BNode?) && pred != FHIR_VALUE)) ==>
        && (|values| > 1 ==> r == Err(UniquenessError))
        && (forall v :: values == {v} ==> r == if asLiteral then Ok(TermVal(v)) else Ok(Converted(v)))
  {
    var values := Objects(g, subject, pred);
    if values == {} then Ok(NoVal)
    else if (forall v :: v in values ==> v.BNode?) && pred != FHIR_VALUE then
      var vv := ValuesOfNodes(g, values, pick);
      assert vv != {} by {
        var v :| v in values;
        assert Value(g, v, FHIR_VALUE, pick) in vv;
      }
      if |vv| > 1 then
        if None in vv then Err(TypeError) else Err(UniquenessError)
      else
        var w := TheOne(vv);
        if w.None? then (if asLiteral then Ok(NoVal) else Err(AttributeError))
        else if asLiteral then Ok(TermVal(w.value)) else Ok(Converted(w.value))
    else if |values| > 1 then Err(UniquenessError)
    else
      var v := TheOne(values);
      if asLiteral then Ok(TermVal(v)) else Ok(Converted(v))
  }

  /**
   * Whatever `value` returns is in the graph: an object of (subject, predicate), or the
   * `fhir:value` of such an object that is a blank node.
   */
  lemma ValueOfSound(g: Graph, subject: Term, pred: Term, asLiteral: bool, pick: Chooser)
    requires FairChooser(pick)
    ensures var r := ValueOf(g, subject, pred, asLiteral, pick);
      r.Ok? && r.value != NoVal ==>
        exists v :: Triple(subject, pred, v) in g
          && (TermOf(r.value) == Some(v) || (v.BNode? && Triple(v, FHIR_VALUE, TermOf(r.value).value) in g))
  {
    var r := ValueOf(g, subject, pred, asLiteral, pick);
    var values := Objects(g, subject, pred);
    if r.Ok? && r.value != NoVal {
      if (forall v :: v in values ==> v.BNode?) && pred != FHIR_VALUE {
        var vv := ValuesOfNodes(g, values, pick);
        var w := TheOne(vv);
        assert w.Some? && TermOf(r.value) == w;
        var v :| v in values && w == Value(g, v, FHIR_VALUE, pick);
        assert Triple(subject, pred, v) in g && v.BNode? && Triple(v, FHIR_VALUE, w.value) in g;
      } else {
        var v := TheOne(values);
        assert Triple(subject, pred, v) in g && TermOf(r.value) == Some(v);
      }
    }
  }

  /** A property with one blank-node object whose `fhir:value` is `w` has the value `w`. */
  lemma ValueThroughNode(g: Graph, subject: Term, pred: Term, n: nat, w: Term, pick: Chooser)
    requires FairChooser(pick) && pred != FHIR_VALUE
    requires Objects(g, subject, pred) == {BNode(n)}
    requires Objects(g, BNode(n), FHIR_VALUE) == {w}
    ensures ValueOf(g, subject, pred, true, pick) == Ok(TermVal(w))
    ensures ValueOf(g, subject, pred, false, pick) == Ok(Converted(w))
  {
    ValueUnique(g, BNode(n), FHIR_VALUE, w, pick);
    assert ValuesOfNodes(g, {BNode(n)}, pick) == {Some(w)};
  }

  // ---- extension ----

  /** The predicates of `ext` whose text contains "Extension.value". */
  function ExtensionValuePredicates(g: Graph, ext: Term): (r: set<Term>)
    ensures forall p :: p in r <==> (exists t :: t in g && t.s == ext && t.p == p) && Contains(Text(p), "Extension.value")
  {
    set t | t in g && t.s == ext && Contains(Text(t.p), "Extension.value") :: t.p
  }

  /** The loop of `extension` goes past `ext`: its url is some other text, or none of its predicates is a value. */
  predicate PassesOver(g: Graph, ext: Term, extPred: string, pick: Chooser) {
    var url := ValueOf(g, ext, EXTENSION_URL, false, pick);
    url.Ok? && (!EqualsStr(url.value, extPred) || ExtensionValuePredicates(g, ext) == {})
  }

  /** What the loop of `extension` returns when it stops at `ext`. */
  predicate StopsWith(g: Graph, ext: Term, extPred: string, asLiteral: bool, pick: Chooser, r: Result<Val, PyError>) {
    var url := ValueOf(g, ext, EXTENSION_URL, false, pick);
    if url.Err? then r == Err(url.error)
    else exists p :: p in ExtensionValuePredicates(g, ext) && r == ValueOf(g, ext, p, asLiteral, pick)
  }

  /**
   * `extension`: the value of the first extension of `node` whose url is `extPred`, read through
   * a pred of that extension containing "Extension.value"; NoVal when no extension has it.
   */
  method Extension(g: Graph, node: Term, extPred: string, asLiteral: bool, pick: Chooser) returns (r: Result<Val, PyError>)
    ensures (forall ext :: ext in Objects(g, node, ELEMENT_EXTENSION) ==> PassesOver(g, ext, extPred, pick)) ==> r == Ok(NoVal)
    ensures (exists ext :: ext in Objects(g, node, ELEMENT_EXTENSION) && !PassesOver(g, ext, extPred, pick)) ==>
      exists ext :: ext in Objects(g, node, ELEMENT_EXTENSION) && !PassesOver(g, ext, extPred, pick)
        && StopsWith(g, ext, extPred, asLiteral, pick, r)
  {
    var exts := Objects(g, node, ELEMENT_EXTENSION);
    while exts != {}
      invariant exts <= Objects(g, node, ELEMENT_EXTENSION)
      invariant forall ext :: ext in Objects(g, node, ELEMENT_EXTENSION) - exts ==> PassesOver(g, ext, extPred, pick)
      decreases exts
    {
      var ext :| ext in exts;
      var url := ValueOf(g, ext, EXTENSION_URL, false, pick);
      if url.Err? {
        return Err(url.error);
      }
      if EqualsStr(url.value, extPred) {
        var preds := ExtensionValuePredicates(g, ext);
        if preds != {} {
          var p :| p in preds;
          return ValueOf(g, ext, p, asLiteral, pick);
        }
      }
      exts := exts - {ext};
    }
    return Ok(NoVal);
  }

  // ---- codings ----

  /** `not system or str(system) == value(coding, Coding.system)`, with the lookup's error. */
  function SystemMatches(g: Graph, coding: Term, system: Option<string>, pick: Chooser): (r: Result<bool, PyError>)
    ensures system.None? || system == Some("") ==> r == Ok(true)
  {
    if system.None? || system.value == "" then Ok(true)
    else match ValueOf(g, coding, CODING_SYSTEM, false, pick)
      case Err(e) => Err(e)
      case Ok(v) => Ok(EqualsStr(v, system.value))
  }

  /**
   * The loop body of `code` and `concept_uri`: the first coding of the concept `c` in the
   * requested system gives the value of `resultPred`; NoVal when no coding is in it.
   */
  method FirstCodingValue(g: Graph, c: Term, system: Option<string>, resultPred: Term, asLiteral: bool, pick: Chooser)
    returns (r: Result<Val, PyError>)
    ensures (forall coding :: coding in Objects(g, c, CODEABLE_CONCEPT_CODING) ==> SystemMatches(g, coding, system, pick) == Ok(false))
      ==> r == Ok(NoVal)
    ensures (exists coding :: coding in Objects(g, c, CODEABLE_CONCEPT_CODING) && SystemMatches(g, coding, system, pick) != Ok(false)) ==>
      exists coding :: coding in Objects(g, c, CODEABLE_CONCEPT_CODING)
        && match SystemMatches(g, coding, system, pick)
           case Err(e) => r == Err(e)
           case Ok(b) => b && r == ValueOf(g, coding, resultPred, asLiteral, pick)
  {
    var codings := Objects(g, c, CODEABLE_CONCEPT_CODING);
    while codings != {}
      invariant codings <= Objects(g, c, CODEABLE_CONCEPT_CODING)
      invariant forall coding :: coding in Objects(g, c, CODEABLE_CONCEPT_CODING) - codings ==> SystemMatches(g, coding, system, pick) == Ok(false)
      decreases codings
    {
      var coding :| coding in codings;
      var m := SystemMatches(g, coding, system, pick);
      if m.Err? {
        return Err(m.error);
      }
      if m.value {
        return ValueOf(g, coding, resultPred, asLiteral, pick);
      }
      codings := codings - {coding};
    }
    return Ok(NoVal);
  }

  /** `code`: the code of the first coding of (subject, pred) in `system` (any system when none is given). */
  method Code(g: Graph, subject: Term, pred: Term, system: Option<string>, asLiteral: bool, pick: Chooser)
    returns (r: Result<Val, PyError>)
    ensures !TermTruthy(Value(g, subject, pred, pick)) ==> r == Ok(NoVal)
    ensures TermTruthy(Value(g, subject, pred, pick)) ==>
      var c := Value(g, subject, pred, pick).value;
      (forall coding :: coding in Objects(g, c, CODEABLE_CONCEPT_CODING) ==> SystemMatches(g, coding, system, pick) == Ok(false))
        ==> r == Ok(NoVal)
    ensures TermTruthy(Value(g, subject, pred, pick)) && r.Ok? && r.value != NoVal ==>
      exists coding :: coding in Objects(g, Value(g, subject, pred, pick).value, CODEABLE_CONCEPT_CODING)
        && SystemMatches(g, coding, system, pick) == Ok(true)
        && r == ValueOf(g, coding, CODING_CODE, asLiteral, pick)
    ensures TermTruthy(Value(g, subject, pred, pick)) ==>
      var c := Value(g, subject, pred, pick).value;
      (exists coding ::
         coding in Objects(g, c, CODEABLE_CONCEPT_CODING) && SystemMatches(g, coding, system, pick) != Ok(false))
        ==> exists coding ::
              && coding in Objects(g, c, CODEABLE_CONCEPT_CODING)
              && match SystemMatches(g, coding, system, pick)
                 case Err(e) => r == Err(e)
                 case Ok(b) => b && r == ValueOf(g, coding, CODING_CODE, asLiteral, pick)
  {
    var c := Value(g, subject, pred, pick);
    if TermTruthy(c) {
      r := FirstCodingValue(g, c.value, system, CODING_CODE, asLiteral, pick);
    } else {
      r := Ok(NoVal);
    }
  }

  /** `concept_uri`: the `rdf:type` of the first coding of (subject, pred) in `system`, as a term. */
  method ConceptUri(g: Graph, subject: Term, pred: Term, system: Option<string>, pick: Chooser)
    returns (r: Result<Val, PyError>)
    ensures !TermTruthy(Value(g, subject, pred, pick)) ==> r == Ok(NoVal)
    ensures TermTruthy(Value(g, subject, pred, pick)) ==>
      var c := Value(g, subject, pred, pick).value;
      (forall coding :: coding in Objects(g, c, CODEABLE_CONCEPT_CODING) ==> SystemMatches(g, coding, system, pick) == Ok(false))
        ==> r == Ok(NoVal)
    ensures TermTruthy(Value(g, subject, pred, pick)) && r.Ok? && r.value != NoVal ==>
      exists coding :: coding in Objects(g, Value(g, subject, pred, pick).value, CODEABLE_CONCEPT_CODING)
        && SystemMatches(g, coding, system, pick) == Ok(true)
        && r == ValueOf(g, coding, RDF_TYPE, true, pick)
    ensures TermTruthy(Value(g, subject, pred, pick)) ==>
      var c := Value(g, subject, pred, pick).value;
      (exists coding ::
         coding in Objects(g, c, CODEABLE_CONCEPT_CODING) && SystemMatches(g, coding, system, pick) != Ok(false))
        ==> exists coding ::
              && coding in Objects(g, c, CODEABLE_CONCEPT_CODING)
              && match SystemMatches(g, coding, system, pick)
                 case Err(e) => r == Err(e)
                 case Ok(b) => b && r == ValueOf(g, coding, RDF_TYPE, true, pick)
    ensures r.Ok? ==> !r.value.PyVal?
  {
    var c := Value(g, subject, pred, pick);
    if TermTruthy(c) {
      r := FirstCodingValue(g, c.value, system, RDF_TYPE, true, pick);
      AsLiteralIsTerm(g, pick);
    } else {
      r := Ok(NoVal);
    }
  }

  /** With `asLiteral` set, `value` never converts. */
  lemma AsLiteralIsTerm(g: Graph, pick: Chooser)
    ensures forall s, p :: ValueOf(g, s, p, true, pick).Ok? ==> !ValueOf(g, s, p, true, pick).value.PyVal?
  {
  }

  // ---- links ----

  /**
   * `link`: through the node of (subject, pred), its `fhir:link` and that link's `rdf:type`;
   * (None, None) when either step finds nothing.
   */
  function Link(g: Graph, subject: Term, pred: Term, pick: Chooser): (r: (Option<Term>, Option<Term>))
    ensures r.0.None? ==> r.1.None?
    ensures !TermTruthy(Value(g, subject, pred, pick)) ==> r == (None, None)
    ensures FairChooser(pick) && r.0.Some? ==>
      exists n :: Triple(subject, pred, n) in g && Triple(n, FHIR_LINK, r.0.value) in g
        && r.1 == Value(g, r.0.value, RDF_TYPE, pick)
  {
    var linkNode := Value(g, subject, pred, pick);
    if TermTruthy(linkNode) then
      var l := Value(g, linkNode.value, FHIR_LINK, pick);
      if TermTruthy(l) then (l, Value(g, l.value, RDF_TYPE, pick)) else (None, None)
    else (None, None)
  }

  /** A link node that has a link gives it, with its type. */
  lemma LinkFound(g: Graph, subject: Term, pred: Term, n: Term, l: Term, pick: Chooser)
    requires FairChooser(pick)
    requires Objects(g, subject, pred) == {n} && Text(n) != ""
    requires Objects(g, n, FHIR_LINK) == {l} && Text(l) != ""
    ensures Link(g, subject, pred, pick) == (Some(l), Value(g, l, RDF_TYPE, pick))
  {
    ValueUnique(g, subject, pred, n, pick);
    ValueUnique(g, n, FHIR_LINK, l, pick);
  }

  // ---- codeable concepts ----

  /** `CodeableConcept(system, code, uri)`. */
  datatype CodeableConcept = CodeableConcept(system: Val, code: Val, uri: Option<Term>)

  /** `g.value(s, p, any=False)`: a second distinct object is a UniquenessError. */
  function ValueNotAny(g: Graph, s: Term, p: Term): (r: Result<Option<Term>, PyError>)
    ensures Objects(g, s, p) == {} ==> r == Ok(None)
    ensures forall o :: Objects(g, s, p) == {o} ==> r == Ok(Some(o))
    ensures |Objects(g, s, p)| > 1 ==> r == Err(UniquenessError)
  {
    var os := Objects(g, s, p);
    if os == {} then Ok(None)
    else if |os| > 1 then Err(UniquenessError)
    else Ok(Some(TheOne(os)))
  }

  /**
   * What one coding contributes to `codeable_concept_code`: a concept when both its system and
   * its code are truthy and the system is the requested one (or none is requested); nothing
   * otherwise. A failing lookup is its error.
   */
  function ConceptOf(g: Graph, coding: Term, system: Option<string>, pick: Chooser): (r: Result<Option<CodeableConcept>, PyError>)
    ensures r.Ok? && r.value.Some? ==>
      && ValueOf(g, coding, CODING_SYSTEM, false, pick) == Ok(r.value.value.system)
      && ValueOf(g, coding, CODING_CODE, false, pick) == Ok(r.value.value.code)
      && Truthy(r.value.value.system) && Truthy(r.value.value.code)
      && (system.None? || EqualsStr(r.value.value.system, system.value))
      && ValueNotAny(g, coding, RDF_TYPE) == Ok(r.value.value.uri)
  {
    match ValueOf(g, coding, CODING_SYSTEM, false, pick)
    case Err(e) => Err(e)
    case Ok(codingSystem) =>
      match ValueOf(g, coding, CODING_CODE, false, pick)
      case Err(e) => Err(e)
      case Ok(codingCode) =>
        if Truthy(codingSystem) && Truthy(codingCode) && (system.None? || EqualsStr(codingSystem, system.value)) then
          match ValueNotAny(g, coding, RDF_TYPE)
          case Err(e) => Err(e)
          case Ok(uri) => Ok(Some(CodeableConcept(codingSystem, codingCode, uri)))
        else Ok(None)
  }

  /**
   * `order` lists, without repetition, the codings of `done` that `concept` accepts, with the
   * concepts of `rval` they gave; every accepted coding of `done` is in it.
   */
  ghost predicate Collected(concept: Term -> Result<Option<CodeableConcept>, PyError>, done: set<Term>,
                            order: seq<Term>, rval: seq<CodeableConcept>) {
    && |order| == |rval|
    && (forall i, j :: 0 <= i < j < |order| ==> order[i] != order[j])
    && (forall i :: 0 <= i < |order| ==> order[i] in done)
    && (forall i :: 0 <= i < |order| ==> concept(order[i]) == Ok(Some(rval[i])))
    && (forall c :: c in done && concept(c).Ok? && concept(c).value.Some? ==> c in order)
  }

  lemma CollectedStep(concept: Term -> Result<Option<CodeableConcept>, PyError>, done: set<Term>,
                      order: seq<Term>, rval: seq<CodeableConcept>, coding: Term)
    requires Collected(concept, done, order, rval) && coding !in done
    requires concept(coding).Ok?
    ensures var k := concept(coding).value;
      if k.Some? then Collected(concept, done + {coding}, order + [coding], rval + [k.value])
      else Collected(concept, done + {coding}, order, rval)
  {
  }

  /**
   * `codeable_concept_code`: one concept per coding of the single entry of (subject, predicate)
   * that `ConceptOf` accepts, in the store's order of the codings (`order`, ghost).
   */
  method CodeableConceptCode(g: Graph, subject: Term, pred: Term, system: Option<string>, pick: Chooser)
    returns (r: Result<seq<CodeableConcept>, PyError>, ghost order: seq<Term>)
    ensures |Objects(g, subject, pred)| > 1 ==> r == Err(UniquenessError)
    ensures (ValueNotAny(g, subject, pred) == Ok(None)
             || (ValueNotAny(g, subject, pred).Ok? && !TermTruthy(ValueNotAny(g, subject, pred).value)))
      ==> r == Ok([])
    ensures r.Ok? && ValueNotAny(g, subject, pred).Ok? && TermTruthy(ValueNotAny(g, subject, pred).value) ==>
      Collected(c => ConceptOf(g, c, system, pick), Objects(g, ValueNotAny(g, subject, pred).value.value, CODEABLE_CONCEPT_CODING), order, r.value)
    ensures r.Err? && |Objects(g, subject, pred)| <= 1 ==>
      && ValueNotAny(g, subject, pred).Ok? && TermTruthy(ValueNotAny(g, subject, pred).value)
      && exists c :: c in Objects(g, ValueNotAny(g, subject, pred).value.value, CODEABLE_CONCEPT_CODING)
                     && ConceptOf(g, c, system, pick) == Err(r.error)
    ensures |Objects(g, subject, pred)| <= 1 &&
      (TermTruthy(ValueNotAny(g, subject, pred).value) ==>
        forall c :: c in Objects(g, ValueNotAny(g, subject, pred).value.value, CODEABLE_CONCEPT_CODING) ==>
          ConceptOf(g, c, system, pick).Ok?)
      ==> r.Ok?
  {
    order := [];
    var entry := ValueNotAny(g, subject, pred);
    if entry.Err? {
      return Err(entry.error), order;
    }
    if !TermTruthy(entry.value) {
      return Ok([]), order;
    }
    r, order := CollectConcepts(Objects(g, entry.value.value, CODEABLE_CONCEPT_CODING), c => ConceptOf(g, c, system, pick));
  }

  /** The loop of `codeable_concept_code` over the codings, stopping at the first failing lookup. */
  method CollectConcepts(codings: set<Term>, concept: Term -> Result<Option<CodeableConcept>, PyError>)
    returns (r: Result<seq<CodeableConcept>, PyError>, ghost order: seq<Term>)
    ensures r.Ok? ==> Collected(concept, codings, order, r.value)
    ensures r.Err? ==> exists c :: c in codings && concept(c) == Err(r.error)
    ensures (forall c :: c in codings ==> concept(c).Ok?) ==> r.Ok?
  {
    order := [];
    var rest := codings;
    var rval: seq<CodeableConcept> := [];
    ghost var done: set<Term> := {};
    while rest != {}
      invariant rest + done == codings && rest !! done
      invariant Collected(concept, done, order, rval)
      decreases rest
    {
      var coding :| coding in rest;
      var k := concept(coding);
      if k.Err? {
        return Err(k.error), order;
      }
      CollectedStep(concept, done, order, rval, coding);
      if k.value.Some? {
        rval := rval + [k.value.value];
        order := order + [coding];
      }
      rest := rest - {coding};
      done := done + {coding};
    }
    r := Ok(rval);
  }
}
