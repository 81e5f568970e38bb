/**
 * `FHIRCollection`: the entries of a collection document that wrap a resource, each mapped in
 * entry order with the same options and the same target graph.
 */
module FhirCollectionLoader {
  import opened Wrappers
  import opened Strings
  import opened Json
  import opened Errors
  import opened Rdf
  import opened FhirMetaVoc
  import opened FhirResourceLoader

  /**
   * Python's `key in v` on a loaded JSON value: a member of an object, a substring of a string,
   * an element of a list; a number or a boolean is no container.
   */
  function PyIn(key: string, v: Json): (r: Result<bool, PyError>)
    ensures r.Err? <==> !(v.JObject? || v.JString? || v.JArray?)
    ensures r.Err? ==> r.error == TypeError
    ensures v.JObject? ==> (r == Ok(true) <==> Has(v, key))
  {
    match v
    case JObject(_) => Ok(Has(v, key))
    case JString(s) => Ok(Contains(s, key))
    case JArray(items) => Ok(JString(key) in items)
    case _ => Err(TypeError)
  }

  /** `v.key` on a loaded value: an attribute only an object holding `key` has. */
  function Attr(v: Json, key: string): (r: Result<Json, PyError>)
    ensures r.Ok? <==> Has(v, key)
    ensures r.Ok? ==> Get(v, key) == Some(r.value) && Size(r.value) < Size(v)
  {
    match Get(v, key)
    case Some(x) => Ok(x)
    case None => Err(AttributeError)
  }

  /**
   * `for entry in collection.entry`: the elements of a list; a string iterates its characters;
   * anything else is not iterable.
   */
  function EntryList(collection: Json): (r: Result<seq<Json>, PyError>)
    ensures !Has(collection, "entry") ==> r == Err(AttributeError)
    ensures Get(collection, "entry").Some? && Get(collection, "entry").value.JArray? ==>
      r == Ok(Get(collection, "entry").value.items)
  {
    match Attr(collection, "entry")
    case Err(e) => Err(e)
    case Ok(JArray(items)) => Ok(items)
    case Ok(JString(s)) => Ok(seq(|s|, i requires 0 <= i < |s| => JString([s[i]])))
    case Ok(_) => Err(TypeError)
  }

  /** What one entry contributes: its resource, nothing (no `resource` in it), or an error. */
  function EntryResource(entry: Json): Result<Option<Json>, PyError> {
    match PyIn("resource", entry)
    case Err(e) => Err(e)
    case Ok(present) =>
      if !present then Ok(None)
      else match Attr(entry, "resource")
        case Err(e) => Err(e)
        case Ok(res) => Ok(Some(res))
  }

  /**
   * The resources of `entries`, in entry order, skipping the entries without one; the first
   * entry that cannot be inspected is the error.
   */
  function Resources(entries: seq<Json>): (r: Result<seq<Json>, PyError>)
    ensures r.Ok? ==> |r.value| <= |entries|
  {
    if entries == [] then Ok([])
    else match Resources(entries[..|entries| - 1])
      case Err(e) => Err(e)
      case Ok(rs) =>
        match EntryResource(entries[|entries| - 1])
        case Err(e) => Err(e)
        case Ok(None) => Ok(rs)
        case Ok(Some(res)) => Ok(rs + [res])
  }

  /**
   * The resources are read exactly when every entry can be inspected, and each one comes from an
   * entry that holds it.
   */
  lemma {:induction false} ResourcesFrom(entries: seq<Json>)
    ensures Resources(entries).Ok? <==> forall i :: 0 <= i < |entries| ==> EntryResource(entries[i]).Ok?
    ensures Resources(entries).Ok? ==> forall j :: 0 <= j < |Resources(entries).value| ==>
      exists i :: 0 <= i < |entries| && EntryResource(entries[i]) == Ok(Some(Resources(entries).value[j]))
  {
    if entries != [] {
      var init, last := entries[..|entries| - 1], entries[|entries| - 1];
      ResourcesFrom(init);
      forall i | 0 <= i < |init| ensures init[i] == entries[i] { }
      if Resources(entries).Ok? {
        var rs := Resources(init).value;
        forall j | 0 <= j < |Resources(entries).value|
          ensures exists i :: 0 <= i < |entries| && EntryResource(entries[i]) == Ok(Some(Resources(entries).value[j]))
        {
          if j < |rs| {
            var i :| 0 <= i < |init| && EntryResource(init[i]) == Ok(Some(rs[j]));
            assert EntryResource(entries[i]) == Ok(Some(Resources(entries).value[j]));
          } else {
            assert EntryResource(entries[|entries| - 1]) == Ok(Some(Resources(entries).value[j]));
          }
        }
      }
    }
  }

  /** One more entry that can be inspected adds its resource, if it has one. */
  lemma ResourcesSnoc(es: seq<Json>, e: Json, rs: seq<Json>)
    requires Resources(es) == Ok(rs) && EntryResource(e).Ok?
    ensures Resources(es + [e]) ==
      Ok(rs + if EntryResource(e).value.Some? then [EntryResource(e).value.value] else [])
  {
    assert (es + [e])[..|es|] == es;
    assert rs + [] == rs;
  }

  /** An entry whose object holds `resource` contributes exactly that resource. */
  lemma ResourcesOfWrapped(rs: seq<Json>)
    ensures Resources(Wrapped(rs)) == Ok(rs)
  {
    if rs != [] {
      var w := Wrapped(rs);
      assert w[..|w| - 1] == Wrapped(rs[..|rs| - 1]);
      ResourcesOfWrapped(rs[..|rs| - 1]);
      assert rs[..|rs| - 1] + [rs[|rs| - 1]] == rs;
      WrapHas(rs[|rs| - 1]);
    }
  }

  /** `{"resource": r}` for every `r`. */
  function Wrapped(rs: seq<Json>): (w: seq<Json>)
    ensures |w| == |rs|
  {
    seq(|rs|, i requires 0 <= i < |rs| => JObject([Member("resource", rs[i])]))
  }

  lemma WrapHas(r: Json)
    ensures EntryResource(JObject([Member("resource", r)])) == Ok(Some(r))
  {
    var e := JObject([Member("resource", r)]);
    assert e.members[0].key == "resource";
  }

  /** Entries that hold no resource change nothing. */
  lemma {:induction false} ResourcesSkip(entries: seq<Json>, e: Json)
    requires EntryResource(e) == Ok(None)
    ensures Resources(entries + [e]) == Resources(entries)
  {
    assert (entries + [e])[..|entries|] == entries;
  }

  /**
   * How entry document `doc` was mapped into `e`, whose triples are now (among) `t`: with the
   * collection's options, typed by the document's resource type, as a tree root, with its members.
   * The subject is the slashed base, the type, '/' and the id, a document without an id having
   * been given one; with the ontology header option its header is in `t` as well.
   */
  ghost predicate Mapped(e: FhirResource, doc: Json, vocabulary: Graph, baseUri: string,
                         addOntologyHeader: bool, replaceNarrativeText: bool, t: Graph)
  {
    && baseUri != ""
    && e.Valid() && e.vocabulary == vocabulary && e.baseUri == SlashedBase(baseUri)
    && e.addOntologyHeader == addOntologyHeader && e.replaceNarrativeText == replaceNarrativeText
    && GetString(doc, "resourceType") == Some(e.resourceType)
    && (Has(doc, "id") ==> e.root == doc)
    && GetString(e.root, "id").Some?
    && (!Has(doc, "id") ==> e.root == With(doc, "id", JString(GetString(e.root, "id").value)))
    && e.resourceUri == e.baseUri + e.resourceType + "/" + GetString(e.root, "id").value
    && (addOntologyHeader ==> OntologyTriples(e.resourceUri, VersionText(e.root)) <= t)
    && Triple(Uri(e.resourceUri), RDF_TYPE, Fhir(e.resourceType)) in t
    && Triple(Uri(e.resourceUri), FHIR_NODE_ROLE, FHIR_TREE_ROOT) in t
    && e.ResourceHolds(Uri(e.resourceUri), e.root, t)
  }

  /** A mapped resource stays mapped as its graph grows. */
  lemma MappedGrows(e: FhirResource, doc: Json, vocabulary: Graph, baseUri: string,
                    addOntologyHeader: bool, replaceNarrativeText: bool, t: Graph, t': Graph)
    requires Mapped(e, doc, vocabulary, baseUri, addOntologyHeader, replaceNarrativeText, t) && t <= t'
    ensures Mapped(e, doc, vocabulary, baseUri, addOntologyHeader, replaceNarrativeText, t')
  {
    e.ResourceGrows(Uri(e.resourceUri), e.root, t, t');
  }

  /** Every resource of `es` is mapped from the document at its position, into `t`. */
  ghost predicate AllMapped(es: seq<FhirResource>, docs: seq<Json>, vocabulary: Graph, baseUri: string,
                            addOntologyHeader: bool, replaceNarrativeText: bool, t: Graph)
  {
    |es| == |docs| &&
    forall k :: 0 <= k < |docs| ==> Mapped(es[k], docs[k], vocabulary, baseUri, addOntologyHeader, replaceNarrativeText, t)
  }

  lemma AllMappedGrows(es: seq<FhirResource>, docs: seq<Json>, vocabulary: Graph, baseUri: string,
                       addOntologyHeader: bool, replaceNarrativeText: bool, t: Graph, t': Graph)
    requires AllMapped(es, docs, vocabulary, baseUri, addOntologyHeader, replaceNarrativeText, t) && t <= t'
    ensures AllMapped(es, docs, vocabulary, baseUri, addOntologyHeader, replaceNarrativeText, t')
  {
    forall k | 0 <= k < |docs|
      ensures Mapped(es[k], docs[k], vocabulary, baseUri, addOntologyHeader, replaceNarrativeText, t')
    {
      MappedGrows(es[k], docs[k], vocabulary, baseUri, addOntologyHeader, replaceNarrativeText, t, t');
    }
  }

  /** One more resource mapped into the same graph keeps the list mapped. */
  lemma AllMappedSnoc(es: seq<FhirResource>, docs: seq<Json>, e: FhirResource, doc: Json, vocabulary: Graph,
                      baseUri: string, addOntologyHeader: bool, replaceNarrativeText: bool, t: Graph)
    requires AllMapped(es, docs, vocabulary, baseUri, addOntologyHeader, replaceNarrativeText, t)
    requires Mapped(e, doc, vocabulary, baseUri, addOntologyHeader, replaceNarrativeText, t)
    ensures AllMapped(es + [e], docs + [doc], vocabulary, baseUri, addOntologyHeader, replaceNarrativeText, t)
  {
  }

  /** `FHIRCollection`'s one piece of state: the mapped resources, appended as they are made. */
  class FhirCollection {
    var entries: seq<FhirResource>

    constructor ()
      ensures entries == []
    {
      entries := [];
    }

    /** `self.entries.append(e)`. */
    method Append(e: FhirResource)
      modifies this
      ensures entries == old(entries) + [e]
    {
      entries := entries + [e];
    }
  }

  /** With a target: every resource of `es` went into `target`, mapped from its document. */
  ghost predicate IntoTarget(es: seq<FhirResource>, docs: seq<Json>, vocabulary: Graph, baseUri: string,
                             addOntologyHeader: bool, replaceNarrativeText: bool, target: GraphStore)
    reads target
  {
    && (forall k :: 0 <= k < |es| ==> es[k].g == target)
    && AllMapped(es, docs, vocabulary, baseUri, addOntologyHeader, replaceNarrativeText, target.triples)
  }

  /** Without a target: every resource of `es` has a graph of its own, holding its mapping. */
  ghost predicate OwnGraphs(es: seq<FhirResource>, docs: seq<Json>, vocabulary: Graph, baseUri: string,
                            addOntologyHeader: bool, replaceNarrativeText: bool)
    reads set k | 0 <= k < |es| :: es[k].g
  {
    && |es| == |docs|
    && (forall k :: 0 <= k < |es| ==>
          Mapped(es[k], docs[k], vocabulary, baseUri, addOntologyHeader, replaceNarrativeText, es[k].g.triples))
    && (forall j, k :: 0 <= j < k < |es| ==> es[j].g != es[k].g)
  }

  /**
   * `FHIRCollection(vocabulary, None, base_uri, data=collection, ...)`: one mapped resource per
   * entry that has a `resource`, in entry order. With a target every resource goes into it;
   * without one each resource gets a graph of its own.
   */
  method NewCollection(vocabulary: Graph, ghost rank: Term -> nat, pick: Chooser, settings: Settings,
                       quote: string -> string, uuids: Uuids, baseUri: string, collection: Json,
                       addOntologyHeader: bool, replaceNarrativeText: bool, target: GraphStore?)
    returns (r: Result<FhirCollection, PyError>)
    requires Acyclic(vocabulary, rank)
    requires target != null ==> target.Fresh()
    modifies target, uuids
    ensures target != null ==>
      old(target.triples) <= target.triples && old(target.nextBNode) <= target.nextBNode && target.Fresh()
    ensures EntryList(collection).Err? ==> r == Err(EntryList(collection).error)
    ensures EntryList(collection).Ok? && Resources(EntryList(collection).value).Err? ==> r.Err?
    ensures r.Ok? ==> fresh(r.value) && EntryList(collection).Ok? && Resources(EntryList(collection).value).Ok?
    ensures r.Ok? ==>
      var docs := Resources(EntryList(collection).value).value;
      var es := r.value.entries;
      && |es| == |docs|
      && (target != null ==> forall k :: 0 <= k < |es| ==>
            es[k].g == target && Mapped(es[k], docs[k], vocabulary, baseUri, addOntologyHeader, replaceNarrativeText, target.triples))
      && (target == null ==> forall k :: 0 <= k < |es| ==>
            fresh(es[k].g) && Mapped(es[k], docs[k], vocabulary, baseUri, addOntologyHeader, replaceNarrativeText, es[k].g.triples))
      && (target == null ==> forall j, k :: 0 <= j < k < |es| ==> es[j].g != es[k].g)
  {
    var entries := EntryList(collection);
    if entries.Err? {
      return Err(entries.error);
    }
    var c := new FhirCollection();
    var err;
    ghost var docs;
    err, docs := CollectEntries(c, vocabulary, rank, pick, settings, quote, uuids, baseUri, entries.value,
                                addOntologyHeader, replaceNarrativeText, target);
    if err.Some? {
      return Err(err.value);
    }
    return Ok(c);
  }

  /**
   * The loop of `FHIRCollection.__init__` over `items`, appending to the empty collection `c`: on
   * success `c` holds one mapped resource per item that has a `resource`, in order.
   */
  method CollectEntries(c: FhirCollection, vocabulary: Graph, ghost rank: Term -> nat, pick: Chooser,
                        settings: Settings, quote: string -> string, uuids: Uuids, baseUri: string,
                        items: seq<Json>, addOntologyHeader: bool, replaceNarrativeText: bool, target: GraphStore?)
    returns (err: Option<PyError>, ghost docs: seq<Json>)
    requires Acyclic(vocabulary, rank)
    requires c.entries == []
    requires target != null ==> target.Fresh()
    modifies c, target, uuids
    ensures target != null ==>
      old(target.triples) <= target.triples && old(target.nextBNode) <= target.nextBNode && target.Fresh()
    ensures Resources(items).Err? ==> err.Some?
    ensures err.None? ==> Resources(items) == Ok(docs) && |c.entries| == |docs|
    ensures err.None? && target != null ==>
      IntoTarget(c.entries, docs, vocabulary, baseUri, addOntologyHeader, replaceNarrativeText, target)
    ensures err.None? && target == null ==>
      && OwnGraphs(c.entries, docs, vocabulary, baseUri, addOntologyHeader, replaceNarrativeText)
      && forall k :: 0 <= k < |c.entries| ==> fresh(c.entries[k].g)
  {
    docs := [];
    var i := 0;
    while i < |items|
      invariant 0 <= i <= |items|
      invariant Resources(items[..i]) == Ok(docs)
      invariant |c.entries| == |docs|
      invariant target != null ==>
        old(target.triples) <= target.triples && old(target.nextBNode) <= target.nextBNode && target.Fresh()
      invariant target != null ==> IntoTarget(c.entries, docs, vocabulary, baseUri, addOntologyHeader, replaceNarrativeText, target)
      invariant target == null ==> OwnGraphs(c.entries, docs, vocabulary, baseUri, addOntologyHeader, replaceNarrativeText)
      invariant target == null ==> forall k :: 0 <= k < |c.entries| ==> fresh(c.entries[k].g)
    {
      ghost var docs' := docs;
      if target != null {
        err, docs' := CollectInto(c, docs, vocabulary, rank, pick, settings, quote, uuids, baseUri, items[i],
                                  addOntologyHeader, replaceNarrativeText, target);
      } else {
        err, docs' := CollectOwn(c, docs, vocabulary, rank, pick, settings, quote, uuids, baseUri, items[i],
                                 addOntologyHeader, replaceNarrativeText);
      }
      if err.Some? {
        return;
      }
      assert items[..i + 1] == items[..i] + [items[i]];
      ResourcesSnoc(items[..i], items[i], docs);
      docs := docs';
      i := i + 1;
    }
    assert items[..i] == items;
    err := None;
  }

  /**
   * The loop body of `FHIRCollection.__init__` with a target: the entry's resource, if any, mapped
   * into the target and appended; the resources so far stay mapped there.
   */
  method CollectInto(c: FhirCollection, ghost docs: seq<Json>, vocabulary: Graph, ghost rank: Term -> nat,
                     pick: Chooser, settings: Settings, quote: string -> string, uuids: Uuids, baseUri: string,
                     entry: Json, addOntologyHeader: bool, replaceNarrativeText: bool, target: GraphStore)
    returns (err: Option<PyError>, ghost docs': seq<Json>)
    requires Acyclic(vocabulary, rank)
    requires |c.entries| == |docs|
    requires target.Fresh()
    requires IntoTarget(c.entries, docs, vocabulary, baseUri, addOntologyHeader, replaceNarrativeText, target)
    modifies c, target, uuids
    ensures old(target.triples) <= target.triples && old(target.nextBNode) <= target.nextBNode && target.Fresh()
    ensures EntryResource(entry).Err? ==> err == Some(EntryResource(entry).error)
    ensures err.None? ==> (EntryResource(entry).Ok? &&
      docs' == docs + (if EntryResource(entry).value.Some? then [EntryResource(entry).value.value] else []))
    ensures err.None? ==> |c.entries| == |docs'| && c.entries[..|old(c.entries)|] == old(c.entries)
    ensures err.None? ==>
      IntoTarget(c.entries, docs', vocabulary, baseUri, addOntologyHeader, replaceNarrativeText, target)
  {
    docs' := docs;
    ghost var t0 := target.triples;
    var mapped := MapEntry(vocabulary, rank, pick, settings, quote, uuids, baseUri, entry,
                           addOntologyHeader, replaceNarrativeText, target);
    if mapped.Err? {
      return Some(mapped.error), docs';
    }
    AllMappedGrows(c.entries, docs, vocabulary, baseUri, addOntologyHeader, replaceNarrativeText, t0, target.triples);
    if mapped.value.Some? {
      var e := mapped.value.value;
      ghost var es := c.entries;
      c.Append(e);
      docs' := docs + [EntryResource(entry).value.value];
      AllMappedSnoc(es, docs, e, docs'[|docs|], vocabulary, baseUri, addOntologyHeader,
                    replaceNarrativeText, target.triples);
    }
    err := None;
  }

  /**
   * The loop body of `FHIRCollection.__init__` without a target: the entry's resource, if any,
   * mapped into a graph of its own and appended; the resources so far stay mapped in theirs.
   */
  method CollectOwn(c: FhirCollection, ghost docs: seq<Json>, vocabulary: Graph, ghost rank: Term -> nat,
                    pick: Chooser, settings: Settings, quote: string -> string, uuids: Uuids, baseUri: string,
                    entry: Json, addOntologyHeader: bool, replaceNarrativeText: bool)
    returns (err: Option<PyError>, ghost docs': seq<Json>)
    requires Acyclic(vocabulary, rank)
    requires |c.entries| == |docs|
    requires OwnGraphs(c.entries, docs, vocabulary, baseUri, addOntologyHeader, replaceNarrativeText)
    modifies c, uuids
    ensures EntryResource(entry).Err? ==> err == Some(EntryResource(entry).error)
    ensures err.None? ==> (EntryResource(entry).Ok? &&
      docs' == docs + (if EntryResource(entry).value.Some? then [EntryResource(entry).value.value] else []))
    ensures err.None? ==> |c.entries| == |docs'| && c.entries[..|old(c.entries)|] == old(c.entries)
    ensures err.None? ==>
      && OwnGraphs(c.entries, docs', vocabulary, baseUri, addOntologyHeader, replaceNarrativeText)
      && forall k :: |old(c.entries)| <= k < |c.entries| ==> fresh(c.entries[k].g)
  {
    docs' := docs;
    var mapped := MapEntry(vocabulary, rank, pick, settings, quote, uuids, baseUri, entry,
                           addOntologyHeader, replaceNarrativeText, null);
    if mapped.Err? {
      return Some(mapped.error), docs';
    }
    if mapped.value.Some? {
      var e := mapped.value.value;
      c.Append(e);
      docs' := docs + [EntryResource(entry).value.value];
      assert c.entries[|docs|] == e;
    }
    err := None;
  }

  /** One entry of the loop: its resource mapped, nothing when it has none, or the error. */
  method MapEntry(vocabulary: Graph, ghost rank: Term -> nat, pick: Chooser, settings: Settings,
                  quote: string -> string, uuids: Uuids, baseUri: string, entry: Json,
                  addOntologyHeader: bool, replaceNarrativeText: bool, target: GraphStore?)
    returns (r: Result<Option<FhirResource>, PyError>)
    requires Acyclic(vocabulary, rank)
    requires target != null ==> target.Fresh()
    modifies target, uuids
    ensures target != null ==>
      old(target.triples) <= target.triples && old(target.nextBNode) <= target.nextBNode && target.Fresh()
    ensures EntryResource(entry).Err? ==> r == Err(EntryResource(entry).error)
    ensures r.Ok? ==> EntryResource(entry).Ok? && (r.value.Some? <==> EntryResource(entry).value.Some?)
    ensures r.Ok? && r.value.Some? ==>
      var e := r.value.value;
      && Mapped(e, EntryResource(entry).value.value, vocabulary, baseUri, addOntologyHeader, replaceNarrativeText, e.g.triples)
      && (if target == null then fresh(e.g) else e.g == target)
  {
    var res := EntryResource(entry);
    if res.Err? {
      return Err(res.error);
    }
    if res.value.None? {
      return Ok(None);
    }
    var mapped := NewResource(vocabulary, rank, pick, settings, quote, uuids, baseUri, res.value.value, target,
                              addOntologyHeader, replaceNarrativeText, true, None);
    if mapped.Err? {
      return Err(mapped.error);
    }
    return Ok(Some(mapped.value));
  }
}
