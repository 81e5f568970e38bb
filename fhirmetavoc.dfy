/**
 * `FHIRMetaVocEntry`: what the FHIR metadata vocabulary (the schema graph `o`) says about one
 * class `subj`: the JSON tags of its properties, whether a type is primitive, whether a
 * property is atomic, and which XSD datatype a primitive value carries.
 */
module FhirMetaVoc {
  import opened Wrappers
  import opened Strings
  import opened Rdf
  import opened Errors
  import Json

  const FHIR_PRIMITIVE: Term := Fhir("Primitive")
  const OWL_RESTRICTION: Term := Owl("Restriction")
  const OWL_ON_PROPERTY: Term := Owl("onProperty")
  const OWL_ALL_VALUES_FROM: Term := Owl("allValuesFrom")
  const OWL_DATATYPE_PROPERTY: Term := Owl("DatatypeProperty")

  const XSD_STRING: Term := Xsd("string")
  const XSD_ANY_URI: Term := Xsd("anyURI")
  const XSD_DATE_TIME: Term := Xsd("dateTime")
  const XSD_DATE: Term := Xsd("date")
  const XSD_G_YEAR: Term := Xsd("gYear")
  const XSD_G_YEAR_MONTH: Term := Xsd("gYearMonth")

  /** The two class-level switches of `FHIRMetaVocEntry`. */
  datatype Settings = Settings(fhirDates: bool, fhirOids: bool)

  const DEFAULT_SETTINGS: Settings := Settings(true, true)

  /** The subject argument: a bare type name, or a URI used as it is. */
  datatype SubjectArg = TypeName(name: string) | SubjectUri(uri: string)

  function EntrySubject(subject: SubjectArg): (r: Term)
    ensures r.Uri?
    ensures subject.TypeName? ==> r == Fhir(subject.name)
    ensures subject.SubjectUri? ==> r.iri == subject.uri
  {
    match subject
    case TypeName(name) => Fhir(name)
    case SubjectUri(uri) => Uri(uri)
  }

  // ---- tag names ----

  /**
   * `_to_str`: the JSON tag of a property URI. Every occurrence of the FHIR namespace text is
   * removed; the tag is what follows the last '.', or the whole remainder when it has none.
   */
  function ToStr(uri: string): (r: string)
    ensures '.' !in r
    ensures var local := RemoveAll(uri, FHIR_NS);
      if '.' in local then exists head :: local == head + "." + r else r == local
  {
    var local := RemoveAll(uri, FHIR_NS);
    match RSplit(local, '.')
    case Some((head, tag)) => tag
    case None => local
  }

  /** A property URI in the FHIR namespace gives the last step of its dotted path. */
  lemma ToStrOfFhirPath(path: string, tag: string)
    requires !Contains(path + "." + tag, FHIR_NS) && '.' !in tag
    ensures ToStr(FHIR_NS + path + "." + tag) == tag
  {
    var local := path + "." + tag;
    assert FHIR_NS + path + "." + tag == FHIR_NS + local;
    assert (FHIR_NS + local)[..|FHIR_NS|] == FHIR_NS;
    assert (FHIR_NS + local)[|FHIR_NS|..] == local;
    assert RemoveAll(FHIR_NS + local, FHIR_NS) == local;
    RSplitOfJoin(path, '.', tag);
  }

  lemma ToStrExample()
    ensures ToStr(FHIR_NS + "Provenance.agent" + "." + "whoReference") == "whoReference"
  {
    var path := "Provenance.agent" + "." + "whoReference";
    assert !Contains(path, FHIR_NS) by {
      NoLongPrefix(path, FHIR_NS);
    }
    ToStrOfFhirPath("Provenance.agent", "whoReference");
  }

  /** A string holding no ':' does not contain a pattern that does. */
  lemma {:induction false} NoLongPrefix(s: string, p: string)
    requires ':' in p && ':' !in s
    ensures !Contains(s, p)
    decreases |s|
  {
    if |s| > 0 {
      NoLongPrefix(s[1..], p);
    }
  }

  // ---- predicates ----

  /** A superclass that `predicates` descends into: a URI outside the W5 namespace. */
  predicate Structural(parent: Term) {
    parent.Uri? && !StartsWith(parent.iri, W5_NS)
  }

  /**
   * `rank` orders the superclass relation: every structural superclass ranks below its subclass.
   * Under it the walk of `predicates` ends.
   */
  ghost predicate Acyclic(o: Graph, rank: Term -> nat) {
    forall t :: t in o && t.p == RDFS_SUBCLASSOF && Structural(t.o) ==> rank(t.o) < rank(t.s)
  }

  function StructuralParents(o: Graph, subj: Term): (r: set<Term>)
    ensures forall p :: p in r <==> Triple(subj, RDFS_SUBCLASSOF, p) in o && Structural(p)
  {
    set p | p in Objects(o, subj, RDFS_SUBCLASSOF) && Structural(p)
  }

  /** The properties declared on `subj` itself: the subjects of `rdfs:domain subj`. */
  function OwnPredicates(o: Graph, subj: Term): (r: set<Term>)
    ensures forall s :: s in r <==> Triple(s, RDFS_DOMAIN, subj) in o
  {
    Subjects(o, RDFS_DOMAIN, subj)
  }

  /** Every property of `subj`: its own and those of its structural superclasses, transitively. */
  ghost function AllPredicates(o: Graph, subj: Term, rank: Term -> nat): set<Term>
    requires Acyclic(o, rank)
    decreases rank(subj), |StructuralParents(o, subj)| + 1
  {
    OwnPredicates(o, subj) + InheritedPredicates(o, subj, StructuralParents(o, subj), rank)
  }

  /** The properties reached through the superclasses in `parents`. */
  ghost function InheritedPredicates(o: Graph, subj: Term, parents: set<Term>, rank: Term -> nat): set<Term>
    requires Acyclic(o, rank)
    requires parents <= StructuralParents(o, subj)
    decreases rank(subj), |parents|
  {
    if parents == {} then {}
    else
      var p :| p in parents;
      AllPredicates(o, p, rank) + InheritedPredicates(o, subj, parents - {p}, rank)
  }

  lemma {:induction false} InheritedPredicatesIn(o: Graph, subj: Term, parents: set<Term>, rank: Term -> nat, q: Term)
    requires Acyclic(o, rank)
    requires parents <= StructuralParents(o, subj)
    ensures q in InheritedPredicates(o, subj, parents, rank) <==>
      exists p :: p in parents && q in AllPredicates(o, p, rank)
    decreases |parents|
  {
    if parents != {} {
      var p :| p in parents && InheritedPredicates(o, subj, parents, rank)
        == AllPredicates(o, p, rank) + InheritedPredicates(o, subj, parents - {p}, rank);
      InheritedPredicatesIn(o, subj, parents - {p}, rank, q);
    }
  }

  /** The JSON tag of a property term. */
  function Tag(q: Term): string {
    ToStr(Text(q))
  }

  /** The tags of a set of properties, under the tag function `tag`. */
  ghost function TagsOf(preds: set<Term>, tag: Term -> string): set<string> {
    set q | q in preds :: tag(q)
  }

  lemma TagOfMember(q: Term, preds: set<Term>, tag: Term -> string)
    requires q in preds
    ensures tag(q) in TagsOf(preds, tag)
  {
  }

  lemma TagHasMember(t: string, preds: set<Term>, tag: Term -> string) returns (q: Term)
    requires t in TagsOf(preds, tag)
    ensures q in preds && tag(q) == t
  {
    q :| q in preds && tag(q) == t;
  }

  /** Every tag is the tag of its value, and every value is one of `preds`. */
  ghost predicate Tagged(r: map<string, Term>, preds: set<Term>, tag: Term -> string) {
    forall t :: t in r ==> r[t] in preds && tag(r[t]) == t
  }

  /** The tags of `own` are bound to members of `own`. */
  ghost predicate OwnWins(r: map<string, Term>, own: set<Term>, tag: Term -> string) {
    forall t :: t in r && t in TagsOf(own, tag) ==> r[t] in own
  }

  /**
   * `predicates`: the map from JSON tag to property for `subj`. The maps of the structural
   * superclasses are merged first, then each own property is written under its tag, so an own
   * property overrides an inherited one with the same tag. Which of two properties with one tag
   * wins among the superclasses, or among the own properties, depends on the store's order.
   */
  method Predicates(o: Graph, subj: Term, ghost rank: Term -> nat) returns (r: map<string, Term>)
    requires Acyclic(o, rank)
    ensures r.Keys == TagsOf(AllPredicates(o, subj, rank), Tag)
    ensures Tagged(r, AllPredicates(o, subj, rank), Tag)
    ensures OwnWins(r, OwnPredicates(o, subj), Tag)
    decreases rank(subj), 1
  {
    ghost var inherited;
    r, inherited := InheritedTags(o, subj, rank);
    var own := OwnPredicates(o, subj);
    ghost var ownDone: set<Term> := {};
    assert inherited + ownDone == inherited && TagsOf(ownDone, Tag) == {};
    while own != {}
      invariant own + ownDone == OwnPredicates(o, subj) && own !! ownDone
      invariant r.Keys == TagsOf(inherited + ownDone, Tag)
      invariant Tagged(r, inherited + ownDone, Tag) && OwnWins(r, ownDone, Tag)
      decreases own
    {
      var s :| s in own;
      TagMapAdd(r, inherited, ownDone, s, Tag);
      r := r[Tag(s) := s];
      own := own - {s};
      ownDone := ownDone + {s};
    }
    assert inherited + ownDone == AllPredicates(o, subj, rank);
  }

  /** The first loop of `predicates`: the superclasses' maps merged with `update`. */
  method InheritedTags(o: Graph, subj: Term, ghost rank: Term -> nat)
    returns (r: map<string, Term>, ghost inherited: set<Term>)
    requires Acyclic(o, rank)
    ensures inherited == InheritedPredicates(o, subj, StructuralParents(o, subj), rank)
    ensures r.Keys == TagsOf(inherited, Tag) && Tagged(r, inherited, Tag)
    decreases rank(subj), 0
  {
    r := map[];
    inherited := {};
    var parents := Objects(o, subj, RDFS_SUBCLASSOF);
    ghost var done: set<Term> := {};
    assert TagsOf(inherited, Tag) == {};
    while parents != {}
      invariant parents + done == Objects(o, subj, RDFS_SUBCLASSOF) && parents !! done
      invariant InheritedThrough(o, rank, done, inherited)
      invariant r.Keys == TagsOf(inherited, Tag) && Tagged(r, inherited, Tag)
      decreases parents
    {
      var parent :| parent in parents;
      InheritedStep(o, rank, done, inherited, parent);
      if Structural(parent) {
        assert rank(parent) < rank(subj);
        var sub := Predicates(o, parent, rank);
        MergeTagMaps(r, inherited, sub, AllPredicates(o, parent, rank), Tag);
        r := r + sub;
        inherited := inherited + AllPredicates(o, parent, rank);
      } else {
        assert inherited + {} == inherited;
      }
      parents := parents - {parent};
      done := done + {parent};
    }
    InheritedAll(o, subj, rank, done, inherited);
  }

  /** `inherited` holds exactly the properties of the structural superclasses in `done`. */
  ghost predicate InheritedThrough(o: Graph, rank: Term -> nat, done: set<Term>, inherited: set<Term>)
    requires Acyclic(o, rank)
  {
    forall q :: q in inherited <==> exists p :: p in done && Structural(p) && q in AllPredicates(o, p, rank)
  }

  lemma InheritedStep(o: Graph, rank: Term -> nat, done: set<Term>, inherited: set<Term>, parent: Term)
    requires Acyclic(o, rank)
    requires InheritedThrough(o, rank, done, inherited)
    ensures InheritedThrough(o, rank, done + {parent},
      inherited + if Structural(parent) then AllPredicates(o, parent, rank) else {})
  {
  }

  lemma InheritedAll(o: Graph, subj: Term, rank: Term -> nat, done: set<Term>, inherited: set<Term>)
    requires Acyclic(o, rank)
    requires done == Objects(o, subj, RDFS_SUBCLASSOF)
    requires InheritedThrough(o, rank, done, inherited)
    ensures inherited == InheritedPredicates(o, subj, StructuralParents(o, subj), rank)
  {
    forall q
      ensures q in inherited <==> q in InheritedPredicates(o, subj, StructuralParents(o, subj), rank)
    {
      InheritedPredicatesIn(o, subj, StructuralParents(o, subj), rank, q);
    }
  }

  /** `rval.update(sub)` keeps the tag-map shape for the union of the two property sets. */
  lemma MergeTagMaps(r: map<string, Term>, preds: set<Term>, sub: map<string, Term>, subPreds: set<Term>, tag: Term -> string)
    requires r.Keys == TagsOf(preds, tag) && Tagged(r, preds, tag)
    requires sub.Keys == TagsOf(subPreds, tag) && Tagged(sub, subPreds, tag)
    ensures (r + sub).Keys == TagsOf(preds + subPreds, tag) && Tagged(r + sub, preds + subPreds, tag)
  {
    forall t | t in TagsOf(preds + subPreds, tag)
      ensures t in (r + sub).Keys
    {
      var q := TagHasMember(t, preds + subPreds, tag);
      if q in preds {
        TagOfMember(q, preds, tag);
      } else {
        TagOfMember(q, subPreds, tag);
      }
    }
    forall t | t in (r + sub).Keys
      ensures t in TagsOf(preds + subPreds, tag)
    {
      if t in sub {
        TagOfMember(sub[t], preds + subPreds, tag);
      } else {
        TagOfMember(r[t], preds + subPreds, tag);
      }
    }
  }

  /** `rval[tag] = s` for an own property `s` keeps the tag-map shape. */
  lemma TagMapAdd(r: map<string, Term>, preds: set<Term>, own: set<Term>, s: Term, tag: Term -> string)
    requires r.Keys == TagsOf(preds + own, tag) && Tagged(r, preds + own, tag) && OwnWins(r, own, tag)
    ensures var m := r[tag(s) := s];
      m.Keys == TagsOf(preds + (own + {s}), tag) && Tagged(m, preds + (own + {s}), tag) && OwnWins(m, own + {s}, tag)
  {
    var m := r[tag(s) := s];
    forall t | t in TagsOf(preds + (own + {s}), tag)
      ensures t in m
    {
      var q := TagHasMember(t, preds + (own + {s}), tag);
      if q != s {
        TagOfMember(q, preds + own, tag);
      }
    }
    forall t | t in m
      ensures t in TagsOf(preds + (own + {s}), tag)
    {
      TagOfMember(m[t], preds + (own + {s}), tag);
    }
    forall t | t in m && t in TagsOf(own + {s}, tag)
      ensures m[t] in own + {s}
    {
      if t != tag(s) {
        var q := TagHasMember(t, own + {s}, tag);
        TagOfMember(q, own, tag);
      }
    }
  }

  // ---- type queries ----

  /** `predicate_type`: the `rdfs:range` of `pred`, if any. */
  function PredicateType(o: Graph, pred: Term, pick: Chooser): (r: Option<Term>)
    ensures r.None? <==> forall q :: Triple(pred, RDFS_RANGE, q) !in o
    ensures FairChooser(pick) && r.Some? ==> Triple(pred, RDFS_RANGE, r.value) in o
  {
    Value(o, pred, RDFS_RANGE, pick)
  }

  /** `has_type`: `t` is the subject of some triple. */
  predicate HasType(o: Graph, t: Term)
    ensures HasType(o, t) <==> t in AllSubjects(o)
  {
    HasSubject(o, t)
  }

  /** `is_valid`: true for a known type; TypeError otherwise. */
  function IsValid(o: Graph, t: Term): (r: Result<bool, PyError>)
    ensures r.Ok? <==> t in AllSubjects(o)
    ensures r.Ok? ==> r.value
    ensures r.Err? ==> r.error == TypeError
  {
    if !HasType(o, t) then Err(TypeError) else Ok(true)
  }

  /**
   * `is_primitive`: `fhir:Primitive` is a direct superclass of `t`. A missing type (None) is
   * rdflib's wildcard: then any class with that superclass will do.
   */
  function IsPrimitive(o: Graph, t: Option<Term>): (r: bool)
    ensures t.Some? ==> (r <==> Triple(t.value, RDFS_SUBCLASSOF, FHIR_PRIMITIVE) in o)
    ensures t.None? ==> (r <==> exists s :: Triple(s, RDFS_SUBCLASSOF, FHIR_PRIMITIVE) in o)
  {
    assert t.None? ==> forall s :: Triple(s, RDFS_SUBCLASSOF, FHIR_PRIMITIVE) in o ==> FHIR_PRIMITIVE in ObjectsOf(o, t, RDFS_SUBCLASSOF);
    FHIR_PRIMITIVE in ObjectsOf(o, t, RDFS_SUBCLASSOF)
  }

  /**
   * The type names `value_predicate_to_type` tries for a value tag, in order: for `valueX`, the
   * name X (every "value" removed) and that name with its first letter lower-cased; always, last,
   * the tag itself.
   */
  function TypeCandidates(valuePred: string): (r: seq<string>)
    ensures |r| > 0 && r[|r| - 1] == valuePred
    ensures !StartsWith(valuePred, "value") ==> r == [valuePred]
  {
    var x := RemoveAll(valuePred, "value");
    if StartsWith(valuePred, "value") && x != "" then [x, LowerFirst(x), valuePred] else [valuePred]
  }

  /** The first candidate that names a known type. */
  function FirstKnown(o: Graph, names: seq<string>): (r: Option<nat>)
    ensures r.Some? ==>
      (r.value < |names| && HasType(o, Fhir(names[r.value]))
       && forall i :: 0 <= i < r.value ==> !HasType(o, Fhir(names[i])))
    ensures r.None? ==> forall i :: 0 <= i < |names| ==> !HasType(o, Fhir(names[i]))
  {
    if |names| == 0 then None
    else if HasType(o, Fhir(names[0])) then Some(0)
    else match FirstKnown(o, names[1..])
      case None => None
      case Some(i) => Some(i + 1)
  }

  /**
   * `value_predicate_to_type`: for `valueX`, `fhir:X` when known, else X with a lower-cased first
   * letter when known; otherwise the tag itself, which `is_valid` rejects with TypeError.
   */
  function ValuePredicateToType(o: Graph, valuePred: string): (r: Result<Term, PyError>)
    ensures var c := TypeCandidates(valuePred);
      match FirstKnown(o, c)
      case Some(i) => r == Ok(Fhir(c[i]))
      case None => r == Err(TypeError)
  {
    if StartsWith(valuePred, "value") && RemoveAll(valuePred, "value") != ""
       && HasType(o, Fhir(RemoveAll(valuePred, "value"))) then
      Ok(Fhir(RemoveAll(valuePred, "value")))
    else if StartsWith(valuePred, "value") && RemoveAll(valuePred, "value") != ""
       && HasType(o, Fhir(LowerFirst(RemoveAll(valuePred, "value")))) then
      Ok(Fhir(LowerFirst(RemoveAll(valuePred, "value"))))
    else match IsValid(o, Fhir(valuePred))
      case Ok(_) => Ok(Fhir(valuePred))
      case Err(e) => Err(e)
  }

  /** Whatever `value_predicate_to_type` returns is a known type. */
  lemma ValuePredicateToTypeKnown(o: Graph, valuePred: string)
    ensures ValuePredicateToType(o, valuePred).Ok? ==> HasType(o, ValuePredicateToType(o, valuePred).value)
    ensures ValuePredicateToType(o, valuePred).Err? <==> forall n :: n in TypeCandidates(valuePred) ==> !HasType(o, Fhir(n))
  {
    var c := TypeCandidates(valuePred);
    if FirstKnown(o, c).Some? {
      var i := FirstKnown(o, c).value;
      assert c[i] in c;
    }
  }

  /**
   * `is_atom`: an unknown predicate is not atomic when its text contains ".value" and is a
   * TypeError otherwise; a known one is atomic exactly when it is `fhir:nodeRole` or is typed
   * `owl:DatatypeProperty`.
   */
  function IsAtom(o: Graph, pred: Term): (r: Result<bool, PyError>)
    ensures !HasType(o, pred) && Contains(Text(pred), ".value") ==> r == Ok(false)
    ensures !HasType(o, pred) && !Contains(Text(pred), ".value") ==> r == Err(TypeError)
    ensures HasType(o, pred) ==>
      r == Ok(pred == FHIR_NODE_ROLE || Triple(pred, RDF_TYPE, OWL_DATATYPE_PROPERTY) in o)
  {
    if !HasType(o, pred) then
      if Contains(Text(pred), ".value") then Ok(false) else Err(TypeError)
    else
      Ok(pred == FHIR_NODE_ROLE || OWL_DATATYPE_PROPERTY in Objects(o, pred, RDF_TYPE))
  }

  // ---- primitive datatypes ----

  /** A superclass `sco` that restricts `fhir:value`, as `primitive_datatype` reads it. */
  predicate IsValueRestriction(o: Graph, sco: Term, pick: Chooser) {
    Value(o, sco, RDF_TYPE, pick) == Some(OWL_RESTRICTION) && Value(o, sco, OWL_ON_PROPERTY, pick) == Some(FHIR_VALUE)
  }

  /**
   * `primitive_datatype`: the `owl:allValuesFrom` of a superclass of `t` that is a restriction on
   * `fhir:value`; None when there is no such superclass. A missing type (None) is rdflib's
   * wildcard: then the superclasses of every class are searched.
   */
  method PrimitiveDatatype(o: Graph, t: Option<Term>, pick: Chooser) returns (r: Option<Term>)
    ensures (forall sco :: sco in ObjectsOf(o, t, RDFS_SUBCLASSOF) ==> !IsValueRestriction(o, sco, pick)) ==> r.None?
    ensures (exists sco :: sco in ObjectsOf(o, t, RDFS_SUBCLASSOF) && IsValueRestriction(o, sco, pick)) ==>
      exists sco :: sco in ObjectsOf(o, t, RDFS_SUBCLASSOF) && IsValueRestriction(o, sco, pick)
        && r == Value(o, sco, OWL_ALL_VALUES_FROM, pick)
  {
    var scos := ObjectsOf(o, t, RDFS_SUBCLASSOF);
    while scos != {}
      invariant scos <= ObjectsOf(o, t, RDFS_SUBCLASSOF)
      invariant forall sco :: sco in ObjectsOf(o, t, RDFS_SUBCLASSOF) - scos ==> !IsValueRestriction(o, sco, pick)
      decreases scos
    {
      var sco :| sco in scos;
      var scoType := Value(o, sco, RDF_TYPE, pick);
      var scoProp := Value(o, sco, OWL_ON_PROPERTY, pick);
      if scoType == Some(OWL_RESTRICTION) && scoProp == Some(FHIR_VALUE) {
        return Value(o, sco, OWL_ALL_VALUES_FROM, pick);
      }
      scos := scos - {sco};
    }
    return None;
  }

  /**
   * The XSD type a date value of type `xsd:dateTime` is narrowed to: a year (4 characters), a
   * year and month (7), a date (10, or longer with a time-zone sign right after the date), or a
   * date and time.
   */
  function NarrowDate(v: string): (r: Term)
    ensures r != XSD_STRING && r != XSD_ANY_URI
    ensures |v| == 4 ==> r == XSD_G_YEAR
    ensures |v| == 7 ==> r == XSD_G_YEAR_MONTH
    ensures |v| == 10 || (|v| > 10 && v[10] in "+-") ==> r == XSD_DATE
    ensures |v| != 4 && |v| != 7 && |v| != 10 && !(|v| > 10 && v[10] in "+-") ==> r == XSD_DATE_TIME
  {
    assert XSD_G_YEAR.iri[|XSD_NS|] == XSD_G_YEAR_MONTH.iri[|XSD_NS|] == 'g';
    assert XSD_DATE.iri[|XSD_NS|] == XSD_DATE_TIME.iri[|XSD_NS|] == 'd';
    assert XSD_STRING.iri[|XSD_NS|] == 's' && XSD_ANY_URI.iri[|XSD_NS|] == 'a';
    if |v| == 4 then XSD_G_YEAR
    else if |v| == 7 then XSD_G_YEAR_MONTH
    else if |v| == 10 || (|v| > 10 && v[10] in "+-") then XSD_DATE
    else XSD_DATE_TIME
  }

  /** `v` is measured for date narrowing: the date switch is on, the type is `xsd:dateTime` and `v` is truthy. */
  predicate NarrowsDate(settings: Settings, vt: Option<Term>, v: Option<Json.Json>) {
    settings.fhirDates && vt == Some(XSD_DATE_TIME) && v.Some? && Json.JsonTruthy(v.value)
  }

  /**
   * The datatype decision of `primitive_datatype_nostring` once `primitive_datatype` gave `vt`,
   * for the value `v` the caller passes (a loaded JSON value, or none): a dateTime value that is
   * measured is narrowed by its length when it is a string and is a TypeError from `len`
   * otherwise; `xsd:anyURI` is dropped when `fhirOids` is set, and `xsd:string` always.
   */
  function NoStringDatatype(settings: Settings, vt: Option<Term>, v: Option<Json.Json>): (r: Result<Option<Term>, PyError>)
    ensures r.Err? <==> NarrowsDate(settings, vt, v) && !v.value.JString?
    ensures r.Err? ==> r.error == TypeError
    ensures r.Ok? ==> r.value != Some(XSD_STRING)
    ensures r.Ok? && settings.fhirOids ==> r.value != Some(XSD_ANY_URI)
    ensures NarrowsDate(settings, vt, v) && v.value.JString? ==> r == Ok(Some(NarrowDate(v.value.str)))
    ensures vt == Some(XSD_DATE_TIME) && !NarrowsDate(settings, vt, v) ==> r == Ok(Some(XSD_DATE_TIME))
    ensures vt.Some? && vt.value !in {XSD_STRING, XSD_ANY_URI, XSD_DATE_TIME} ==> r == Ok(vt)
    ensures vt.None? ==> r == Ok(None)
  {
    if NarrowsDate(settings, vt, v) then
      if v.value.JString? then Ok(Some(NarrowDate(v.value.str))) else Err(TypeError)
    else
      var vt' := if settings.fhirOids && vt == Some(XSD_ANY_URI) then None else vt;
      Ok(if vt' == Some(XSD_STRING) then None else vt')
  }

  /**
   * `r` is an outcome `primitive_datatype_nostring` can give for type `t` and value `v`: the
   * decision above applied to the `owl:allValuesFrom` of some restriction superclass of `t`, or
   * to None when `t` has none. Which restriction is met first depends on the store's order.
   */
  ghost predicate NoStringChoice(settings: Settings, o: Graph, t: Option<Term>, v: Option<Json.Json>, pick: Chooser,
                                 r: Result<Option<Term>, PyError>)
  {
    if exists sco :: sco in ObjectsOf(o, t, RDFS_SUBCLASSOF) && IsValueRestriction(o, sco, pick) then
      exists sco :: sco in ObjectsOf(o, t, RDFS_SUBCLASSOF) && IsValueRestriction(o, sco, pick)
        && r == NoStringDatatype(settings, Value(o, sco, OWL_ALL_VALUES_FROM, pick), v)
    else
      r == NoStringDatatype(settings, None, v)
  }

  /**
   * Every datatype the choice allows is never `xsd:string`; a failure is the TypeError of
   * measuring a truthy value that is not a string, so a string, a falsy value or no value at all
   * (and any value with the date switch off) always gives a datatype.
   */
  lemma NoStringChoiceNotString(settings: Settings, o: Graph, t: Option<Term>, v: Option<Json.Json>, pick: Chooser,
                                r: Result<Option<Term>, PyError>)
    requires NoStringChoice(settings, o, t, v, pick, r)
    ensures r.Ok? ==> r.value != Some(XSD_STRING)
    ensures r.Ok? && settings.fhirOids ==> r.value != Some(XSD_ANY_URI)
    ensures r.Err? ==> r.error == TypeError && settings.fhirDates && v.Some? && Json.JsonTruthy(v.value) && !v.value.JString?
  {
  }

  /** With exactly one restriction superclass the store's order does not matter. */
  lemma NoStringChoiceUnique(settings: Settings, o: Graph, t: Option<Term>, v: Option<Json.Json>, pick: Chooser,
                             sco: Term, r: Result<Option<Term>, PyError>)
    requires sco in ObjectsOf(o, t, RDFS_SUBCLASSOF) && IsValueRestriction(o, sco, pick)
    requires forall s :: s in ObjectsOf(o, t, RDFS_SUBCLASSOF) && IsValueRestriction(o, s, pick) ==> s == sco
    requires NoStringChoice(settings, o, t, v, pick, r)
    ensures r == NoStringDatatype(settings, Value(o, sco, OWL_ALL_VALUES_FROM, pick), v)
  {
  }

  /** Without a restriction superclass there is no datatype, and no error. */
  lemma NoStringChoiceNone(settings: Settings, o: Graph, t: Option<Term>, v: Option<Json.Json>, pick: Chooser,
                           r: Result<Option<Term>, PyError>)
    requires forall s :: s in ObjectsOf(o, t, RDFS_SUBCLASSOF) ==> !IsValueRestriction(o, s, pick)
    requires NoStringChoice(settings, o, t, v, pick, r)
    ensures r == Ok(None)
  {
  }

  /**
   * The date switch at work: a four-character year narrows to `xsd:gYear`, while a number given
   * for a dateTime (as in `"issued": 5`) is the TypeError of `len`, and is kept as
   * `xsd:dateTime` when the switch is off.
   */
  lemma DateTimeValueExamples()
    ensures NoStringDatatype(DEFAULT_SETTINGS, Some(XSD_DATE_TIME), Some(Json.JString("2009"))) == Ok(Some(XSD_G_YEAR))
    ensures NoStringDatatype(DEFAULT_SETTINGS, Some(XSD_DATE_TIME), Some(Json.JInt(5))) == Err(TypeError)
    ensures NoStringDatatype(DEFAULT_SETTINGS, Some(XSD_DATE_TIME), Some(Json.JBool(true))) == Err(TypeError)
    ensures NoStringDatatype(Settings(false, true), Some(XSD_DATE_TIME), Some(Json.JInt(5))) == Ok(Some(XSD_DATE_TIME))
    ensures NoStringDatatype(DEFAULT_SETTINGS, Some(XSD_DATE_TIME), Some(Json.JInt(0))) == Ok(Some(XSD_DATE_TIME))
  {
  }

  /** `primitive_datatype_nostring`. */
  method PrimitiveDatatypeNoString(settings: Settings, o: Graph, t: Option<Term>, v: Option<Json.Json>, pick: Chooser)
    returns (r: Result<Option<Term>, PyError>)
    ensures NoStringChoice(settings, o, t, v, pick, r)
    ensures v.None? ==> r.Ok?
    ensures r.Ok? ==> r.value != Some(XSD_STRING)
    ensures r.Ok? && settings.fhirOids ==> r.value != Some(XSD_ANY_URI)
    ensures r.Err? ==> r.error == TypeError && settings.fhirDates && v.Some? && Json.JsonTruthy(v.value) && !v.value.JString?
    ensures (forall sco :: sco in ObjectsOf(o, t, RDFS_SUBCLASSOF) ==> !IsValueRestriction(o, sco, pick)) ==>
      r == NoStringDatatype(settings, None, v)
    ensures (exists sco :: sco in ObjectsOf(o, t, RDFS_SUBCLASSOF) && IsValueRestriction(o, sco, pick)) ==>
      exists sco :: sco in ObjectsOf(o, t, RDFS_SUBCLASSOF) && IsValueRestriction(o, sco, pick)
        && r == NoStringDatatype(settings, Value(o, sco, OWL_ALL_VALUES_FROM, pick), v)
  {
    var vt := PrimitiveDatatype(o, t, pick);
    r := NoStringDatatype(settings, vt, v);
  }
}
