/**
 * `fhir_json_to_rdf`: a single resource, a collection, or a chain of search-result pages joined by
 * their `next` links, all mapped into one target graph.
 */
module FhirJsonLoader {
  import opened Wrappers
  import opened Json
  import opened Errors
  import opened Rdf
  import opened FhirMetaVoc
  import opened FhirResourceLoader
  import opened FhirCollectionLoader

  /** `'relation' in link_e and link_e.relation == 'next'`. */
  function IsNextLink(link: Json): Result<bool, PyError> {
    match PyIn("relation", link)
    case Err(e) => Err(e)
    case Ok(present) =>
      if !present then Ok(false)
      else match Attr(link, "relation")
        case Err(e) => Err(e)
        case Ok(rel) => Ok(rel == JString("next"))
  }

  /** The url of the first `next` link of `links`, None when there is none. */
  function NextUrl(links: seq<Json>): Result<Option<Json>, PyError> {
    if links == [] then Ok(None)
    else match IsNextLink(links[0])
      case Err(e) => Err(e)
      case Ok(next) =>
        if !next then NextUrl(links[1..])
        else match Attr(links[0], "url")
          case Err(e) => Err(e)
          case Ok(url) => Ok(Some(url))
  }

  /** `check_for_continuation(data)`, as a value. */
  function Continuation(doContinuations: bool, data: Json): (r: Result<Option<Json>, PyError>)
    ensures !doContinuations ==> r == Ok(None)
    ensures data.JObject? && (!Has(data, "link") || !MemberOf(data, "link").JArray?) ==> r == Ok(None)
    ensures r.Ok? && r.value.Some? ==>
      Has(data, "link") && MemberOf(data, "link").JArray? && NextUrl(MemberOf(data, "link").items) == r
  {
    if !doContinuations then Ok(None)
    else match PyIn("link", data)
      case Err(e) => Err(e)
      case Ok(present) =>
        if !present then Ok(None)
        else match Attr(data, "link")
          case Err(e) => Err(e)
          case Ok(JArray(links)) => NextUrl(links)
          case Ok(_) => Ok(None)
  }

  /**
   * The first link that is a `next` link decides: every link before it, if it is an object, has
   * another relation, and the url returned is that link's own.
   */
  lemma {:induction false} NextUrlFirst(links: seq<Json>, url: Json)
    requires NextUrl(links) == Ok(Some(url))
    ensures exists i :: 0 <= i < |links| && IsNextLink(links[i]) == Ok(true) && Get(links[i], "url") == Some(url)
              && forall j :: 0 <= j < i ==> IsNextLink(links[j]) == Ok(false)
  {
    if IsNextLink(links[0]) == Ok(true) {
      assert IsNextLink(links[0]) == Ok(true) && Get(links[0], "url") == Some(url);
    } else {
      NextUrlFirst(links[1..], url);
      var i :| 0 <= i < |links[1..]| && IsNextLink(links[1..][i]) == Ok(true) && Get(links[1..][i], "url") == Some(url)
               && forall j :: 0 <= j < i ==> IsNextLink(links[1..][j]) == Ok(false);
      assert links[i + 1] == links[1..][i];
      forall j | 0 <= j < i + 1 ensures IsNextLink(links[j]) == Ok(false) {
        if j > 0 { assert links[j] == links[1..][j - 1]; }
      }
    }
  }

  /** Links that are all objects with some other relation give no continuation. */
  lemma {:induction false} NextUrlNone(links: seq<Json>)
    requires forall i :: 0 <= i < |links| ==> links[i].JObject? && Get(links[i], "relation") != Some(JString("next"))
    ensures NextUrl(links) == Ok(None)
  {
    if links != [] {
      NextUrlNone(links[1..]);
    }
  }

  /**
   * `check_for_continuation`: the url of the first link whose relation is `next`; None when
   * continuations are off, when there is no `link`, or when it is not a list.
   */
  method CheckForContinuation(doContinuations: bool, data: Json) returns (r: Result<Option<Json>, PyError>)
    ensures r == Continuation(doContinuations, data)
    ensures !doContinuations ==> r == Ok(None)
    ensures data.JObject? && (!Has(data, "link") || !MemberOf(data, "link").JArray?) ==> r == Ok(None)
  {
    if !doContinuations {
      return Ok(None);
    }
    var present := PyIn("link", data);
    if present.Err? {
      return Err(present.error);
    }
    if !present.value {
      return Ok(None);
    }
    var link := Attr(data, "link");
    if link.Err? {
      return Err(link.error);
    }
    if !link.value.JArray? {
      return Ok(None);
    }
    var links := link.value.items;
    var i := 0;
    while i < |links|
      invariant 0 <= i <= |links|
      invariant NextUrl(links[i..]) == NextUrl(links)
    {
      var next := IsNextLink(links[i]);
      if next.Err? {
        return Err(next.error);
      }
      if next.value {
        var url := Attr(links[i], "url");
        if url.Err? {
          return Err(url.error);
        }
        return Ok(Some(url.value));
      }
      assert links[i..][1..] == links[i + 1..];
      i := i + 1;
    }
    return Ok(None);
  }

  /** How `fhir_json_to_rdf` treats one page. */
  datatype PageKind = ResourcePage | CollectionPage(header: bool) | Unrecognised

  /**
   * A page with a `resourceType` other than `Bundle` is one resource; one whose `entry` list
   * starts with an entry holding `resource` is a collection (given the header only when it has a
   * `resourceType`); an empty entry list fails on its first element; anything else is
   * unrecognised.
   */
  function Classify(data: Json, addOntologyHeader: bool): (r: Result<PageKind, PyError>)
    ensures GetString(data, "resourceType").Some? && GetString(data, "resourceType") != Some("Bundle") ==>
      r == Ok(ResourcePage)
    ensures r == Ok(ResourcePage) ==> data.JObject? && Get(data, "resourceType").Some? && Get(data, "resourceType") != Some(JString("Bundle"))
    ensures r.Ok? && r.value.CollectionPage? ==> r.value.header == (addOntologyHeader && Has(data, "resourceType"))
    ensures data.JObject? && Get(data, "resourceType") != None && Get(data, "resourceType") != Some(JString("Bundle")) ==> r == Ok(ResourcePage)
    ensures data.JObject? && !Has(data, "resourceType") && !Has(data, "entry") ==> r == Ok(Unrecognised)
    ensures data.JObject? && Get(data, "resourceType") != Some(JString("Bundle")) && Get(data, "entry") == Some(JArray([])) ==>
      Has(data, "resourceType") || r == Err(IndexError)
    ensures (data.JObject? && Get(data, "resourceType") in {None, Some(JString("Bundle"))} &&
             Get(data, "entry").Some? && Get(data, "entry").value.JArray? && Get(data, "entry").value.items != [] &&
             Get(data, "entry").value.items[0].JObject?) ==>
        r == (if Has(Get(data, "entry").value.items[0], "resource")
              then Ok(CollectionPage(addOntologyHeader && Has(data, "resourceType")))
              else Ok(Unrecognised))
  {
    match PyIn("resourceType", data)
    case Err(e) => Err(e)
    case Ok(hasType) =>
      var single :=
        if !hasType then Ok(false)
        else match Attr(data, "resourceType")
          case Err(e) => Err(e)
          case Ok(rt) => Ok(rt != JString("Bundle"));
      match single
      case Err(e) => Err(e)
      case Ok(true) => Ok(ResourcePage)
      case Ok(false) =>
        match PyIn("entry", data)
        case Err(e) => Err(e)
        case Ok(false) => Ok(Unrecognised)
        case Ok(true) =>
          match Attr(data, "entry")
          case Err(e) => Err(e)
          case Ok(JArray(entries)) =>
            if entries == [] then Err(IndexError)
            else (match PyIn("resource", entries[0])
              case Err(e) => Err(e)
              case Ok(wrapped) => if wrapped then Ok(CollectionPage(addOntologyHeader && hasType)) else Ok(Unrecognised))
          case Ok(_) => Ok(Unrecognised)
  }

  /**
   * `while page_fname:` with the next name taken from the continuation: a missing or falsy url
   * stops; a truthy url that is not a string cannot be loaded.
   */
  function NextPage(c: Result<Option<Json>, PyError>): (r: Result<Option<string>, PyError>)
    ensures r == Ok(None) <==> c == Ok(None) || (c.Ok? && c.value.Some? && !JsonTruthy(c.value.value))
    ensures r.Ok? && r.value.Some? ==> r.value.value != "" && c == Ok(Some(JString(r.value.value)))
    ensures c.Ok? && r.Err? ==>
      r.error == TypeError && c.value.Some? && JsonTruthy(c.value.value) && !c.value.value.JString?
  {
    match c
    case Err(e) => Err(e)
    case Ok(None) => Ok(None)
    case Ok(Some(JString(s))) => if s == "" then Ok(None) else Ok(Some(s))
    case Ok(Some(u)) => if JsonTruthy(u) then Err(TypeError) else Ok(None)
  }

  /** The page names load in order: each page before the last was mapped and named the next one. */
  ghost predicate Chain(load: string -> Json, jsonFname: string, names: seq<string>,
                        doContinuations: bool, addOntologyHeader: bool)
  {
    && (|names| > 0 ==> names[0] == jsonFname && jsonFname != "")
    && forall k :: 0 <= k < |names| - 1 ==>
         && Classify(load(names[k]), addOntologyHeader).Ok?
         && Classify(load(names[k]), addOntologyHeader).value != Unrecognised
         && NextPage(Continuation(doContinuations, load(names[k]))) == Ok(Some(names[k + 1]))
  }

  /**
   * Page `data` mapped into `t` as the resources `es`, with the loader's options: a resource page
   * as one tree-root resource, a collection page as one resource per entry holding a `resource`,
   * in entry order, each mapped from its document; an unrecognised page as none.
   */
  ghost predicate PageMapped(data: Json, es: seq<FhirResource>, vocabulary: Graph, baseUri: string,
                             addOntologyHeader: bool, replaceNarrativeText: bool, t: Graph)
  {
    match Classify(data, addOntologyHeader)
    case Ok(ResourcePage) =>
      |es| == 1 && Mapped(es[0], data, vocabulary, baseUri, addOntologyHeader, replaceNarrativeText, t)
    case Ok(CollectionPage(h)) =>
      && EntryList(data).Ok? && Resources(EntryList(data).value).Ok?
      && AllMapped(es, Resources(EntryList(data).value).value, vocabulary, baseUri, h, replaceNarrativeText, t)
    case _ => es == []
  }

  /** One page mapped into `g`: Ok(false) when the page has a shape the loader does not know. */
  method MapPage(metavoc: Graph, ghost rank: Term -> nat, pick: Chooser, settings: Settings,
                 quote: string -> string, uuids: Uuids, baseUri: string, data: Json, g: GraphStore,
                 addOntologyHeader: bool, replaceNarrativeText: bool)
    returns (r: Result<bool, PyError>, ghost es: seq<FhirResource>)
    requires Acyclic(metavoc, rank) && g.Fresh()
    modifies g, uuids
    ensures old(g.triples) <= g.triples && g.Fresh()
    ensures Classify(data, addOntologyHeader).Err? ==> r == Err(Classify(data, addOntologyHeader).error)
    ensures Classify(data, addOntologyHeader) == Ok(Unrecognised) ==> r == Ok(false) && g.triples == old(g.triples)
    ensures r.Ok? ==> Classify(data, addOntologyHeader).Ok? && (r.value <==> Classify(data, addOntologyHeader).value != Unrecognised)
    ensures r.Ok? ==> PageMapped(data, es, metavoc, baseUri, addOntologyHeader, replaceNarrativeText, g.triples)
  {
    es := [];
    var kind := Classify(data, addOntologyHeader);
    match kind {
      case Err(e) =>
        return Err(e), es;
      case Ok(Unrecognised) =>
        return Ok(false), es;
      case Ok(ResourcePage) =>
        var res := NewResource(metavoc, rank, pick, settings, quote, uuids, baseUri, data, g,
                               addOntologyHeader, replaceNarrativeText, true, None);
        if res.Err? {
          return Err(res.error), es;
        }
        return Ok(true), [res.value];
      case Ok(CollectionPage(header)) =>
        var coll := NewCollection(metavoc, rank, pick, settings, quote, uuids, baseUri, data,
                                  header, replaceNarrativeText, g);
        if coll.Err? {
          return Err(coll.error), es;
        }
        return Ok(true), coll.value.entries;
    }
  }

  /**
   * `fhir_json_to_rdf`: pages are loaded by name through `load`, starting from `jsonFname`, and
   * mapped into one graph (the target, or a new one) until a page names no next page; a page the
   * loader does not recognise gives None. `fuel` bounds the number of pages loaded.
   */
  method FhirJsonToRdf(metavoc: Graph, ghost rank: Term -> nat, pick: Chooser, settings: Settings,
                       quote: string -> string, uuids: Uuids, load: string -> Json, jsonFname: string,
                       baseUri: string, targetGraph: GraphStore?, addOntologyHeader: bool,
                       doContinuations: bool, replaceNarrativeText: bool, fuel: nat)
    returns (r: Result<GraphStore?, PyError>, ghost names: seq<string>, ghost pages: seq<seq<FhirResource>>)
    requires Acyclic(metavoc, rank)
    requires targetGraph != null ==> targetGraph.Fresh()
    modifies targetGraph, uuids
    ensures |names| <= fuel && Chain(load, jsonFname, names, doContinuations, addOntologyHeader)
    ensures jsonFname != "" && fuel > 0 ==> |names| > 0
    ensures !doContinuations ==> |names| <= 1
    ensures r.Ok? && r.value != null ==> r.value.Fresh() && if targetGraph == null then fresh(r.value) else r.value == targetGraph
    ensures r.Ok? && r.value != null ==>
      PagesMapped(load, names, pages, metavoc, baseUri, addOntologyHeader, replaceNarrativeText, r.value.triples)
    ensures jsonFname == "" ==> r.Ok? && r.value != null && names == []
    ensures jsonFname == "" && targetGraph == null ==> r.Ok? && r.value != null && r.value.triples == {}
    ensures r.Ok? && r.value == null ==>
      |names| > 0 && Classify(load(names[|names| - 1]), addOntologyHeader) == Ok(Unrecognised)
    ensures r.Ok? && r.value != null && 0 < |names| < fuel ==>
      NextPage(Continuation(doContinuations, load(names[|names| - 1]))) == Ok(None)
  {
    var g: GraphStore;
    if targetGraph == null {
      g := new GraphStore();
    } else {
      g := targetGraph;
    }
    var mapped;
    mapped, names, pages := MapPages(metavoc, rank, pick, settings, quote, uuids, load, jsonFname, baseUri, g,
                                     addOntologyHeader, doContinuations, replaceNarrativeText, fuel);
    if mapped.Err? {
      return Err(mapped.error), names, pages;
    }
    if !mapped.value {
      return Ok(null), names, pages;
    }
    return Ok(g), names, pages;
  }

  /**
   * The page loop of `fhir_json_to_rdf`, mapping into `g`: Ok(false) when it stopped at a page
   * the loader does not recognise.
   */
  method MapPages(metavoc: Graph, ghost rank: Term -> nat, pick: Chooser, settings: Settings,
                  quote: string -> string, uuids: Uuids, load: string -> Json, jsonFname: string,
                  baseUri: string, g: GraphStore, addOntologyHeader: bool,
                  doContinuations: bool, replaceNarrativeText: bool, fuel: nat)
    returns (r: Result<bool, PyError>, ghost names: seq<string>, ghost pages: seq<seq<FhirResource>>)
    requires Acyclic(metavoc, rank) && g.Fresh()
    modifies g, uuids
    ensures old(g.triples) <= g.triples && g.Fresh()
    ensures |names| <= fuel && Chain(load, jsonFname, names, doContinuations, addOntologyHeader)
    ensures jsonFname != "" && fuel > 0 ==> |names| > 0
    ensures !doContinuations ==> |names| <= 1
    ensures r == Ok(true) ==>
      PagesMapped(load, names, pages, metavoc, baseUri, addOntologyHeader, replaceNarrativeText, g.triples)
    ensures jsonFname == "" ==> r == Ok(true) && names == [] && g.triples == old(g.triples)
    ensures r == Ok(false) ==>
      |names| > 0 && Classify(load(names[|names| - 1]), addOntologyHeader) == Ok(Unrecognised)
    ensures r == Ok(true) && 0 < |names| < fuel ==>
      NextPage(Continuation(doContinuations, load(names[|names| - 1]))) == Ok(None)
  {
    names := [];
    pages := [];
    r := Ok(true);
    var page: Option<string> := if jsonFname == "" then None else Some(jsonFname);
    var loaded := 0;
    while r == Ok(true) && page.Some? && loaded < fuel
      invariant loaded == |names| <= fuel
      invariant Chain(load, jsonFname, names, doContinuations, addOntologyHeader)
      invariant !doContinuations ==> |names| <= 1
      invariant jsonFname == "" ==> names == []
      invariant old(g.triples) <= g.triples && g.Fresh()
      invariant names == [] ==> r == Ok(true) && g.triples == old(g.triples)
      invariant r == Ok(true) ==> Pending(load, jsonFname, names, doContinuations, addOntologyHeader, page)
      invariant r == Ok(true) ==>
        PagesMapped(load, names, pages, metavoc, baseUri, addOntologyHeader, replaceNarrativeText, g.triples)
      invariant r == Ok(false) ==>
        |names| > 0 && Classify(load(names[|names| - 1]), addOntologyHeader) == Ok(Unrecognised)
      decreases fuel - loaded
    {
      var next;
      ghost var es;
      r, next, es := MapNamedPage(metavoc, rank, pick, settings, quote, uuids, load, jsonFname, baseUri,
                                  g, addOntologyHeader, doContinuations, replaceNarrativeText,
                                  names, pages, page.value);
      names := names + [page.value];
      pages := pages + [es];
      loaded := loaded + 1;
      page := next;
    }
  }

  /**
   * The state of the page loop: `names` were loaded as a chain and `page` is what the last of
   * them names next (the first page before any is loaded); without continuations at most one
   * page is loaded.
   */
  ghost predicate Pending(load: string -> Json, jsonFname: string, names: seq<string>,
                          doContinuations: bool, addOntologyHeader: bool, page: Option<string>)
  {
    && Chain(load, jsonFname, names, doContinuations, addOntologyHeader)
    && (names == [] ==> page == (if jsonFname == "" then None else Some(jsonFname)))
    && (names != [] ==>
          && NextPage(Continuation(doContinuations, load(names[|names| - 1]))) == Ok(page)
          && Classify(load(names[|names| - 1]), addOntologyHeader).Ok?
          && Classify(load(names[|names| - 1]), addOntologyHeader).value != Unrecognised)
    && (!doContinuations ==> |names| <= 1 && (names != [] ==> page.None?))
  }

  /** A recognised page whose continuation names `next` moves the loop on to `next`. */
  lemma PendingNext(load: string -> Json, jsonFname: string, names: seq<string>, doContinuations: bool,
                    addOntologyHeader: bool, name: string, next: Option<string>)
    requires Pending(load, jsonFname, names, doContinuations, addOntologyHeader, Some(name))
    requires Chain(load, jsonFname, names + [name], doContinuations, addOntologyHeader)
    requires Classify(load(name), addOntologyHeader).Ok? && Classify(load(name), addOntologyHeader).value != Unrecognised
    requires NextPage(Continuation(doContinuations, load(name))) == Ok(next)
    ensures Pending(load, jsonFname, names + [name], doContinuations, addOntologyHeader, next)
  {
  }

  /** Every page named so far is mapped into `t`, as the resources at its position in `pages`. */
  ghost predicate PagesMapped(load: string -> Json, names: seq<string>, pages: seq<seq<FhirResource>>,
                              vocabulary: Graph, baseUri: string, addOntologyHeader: bool,
                              replaceNarrativeText: bool, t: Graph)
  {
    && |pages| == |names|
    && forall k :: 0 <= k < |names| ==>
         PageMapped(load(names[k]), pages[k], vocabulary, baseUri, addOntologyHeader, replaceNarrativeText, t)
  }

  /**
   * One turn of the page loop: the page `name` loaded and mapped into `g`, then the name of the
   * next page read from its continuation. Ok(false) when the page is not recognised.
   */
  method MapNamedPage(metavoc: Graph, ghost rank: Term -> nat, pick: Chooser, settings: Settings,
                      quote: string -> string, uuids: Uuids, load: string -> Json, ghost jsonFname: string,
                      baseUri: string, g: GraphStore, addOntologyHeader: bool, doContinuations: bool,
                      replaceNarrativeText: bool, ghost names: seq<string>,
                      ghost pages: seq<seq<FhirResource>>, name: string)
    returns (r: Result<bool, PyError>, next: Option<string>, ghost es: seq<FhirResource>)
    requires Acyclic(metavoc, rank) && g.Fresh()
    requires Pending(load, jsonFname, names, doContinuations, addOntologyHeader, Some(name))
    requires PagesMapped(load, names, pages, metavoc, baseUri, addOntologyHeader, replaceNarrativeText, g.triples)
    modifies g, uuids
    ensures old(g.triples) <= g.triples && g.Fresh()
    ensures Chain(load, jsonFname, names + [name], doContinuations, addOntologyHeader)
    ensures !doContinuations ==> names == []
    ensures r == Ok(false) ==> Classify(load(name), addOntologyHeader) == Ok(Unrecognised)
    ensures r == Ok(true) ==>
      && Classify(load(name), addOntologyHeader).Ok?
      && Classify(load(name), addOntologyHeader).value != Unrecognised
      && NextPage(Continuation(doContinuations, load(name))) == Ok(next)
      && Pending(load, jsonFname, names + [name], doContinuations, addOntologyHeader, next)
      && PagesMapped(load, names + [name], pages + [es], metavoc, baseUri, addOntologyHeader,
                     replaceNarrativeText, g.triples)
  {
    ChainExtend(load, jsonFname, names, name, doContinuations, addOntologyHeader);
    next := None;
    r, es := MapListedPage(metavoc, rank, pick, settings, quote, uuids, load, baseUri, g,
                           addOntologyHeader, replaceNarrativeText, names, pages, name);
    if r.Err? || !r.value {
      return;
    }
    var c := CheckForContinuation(doContinuations, load(name));
    var np := NextPage(c);
    if np.Err? {
      return Err(np.error), next, es;
    }
    next := np.value;
    PendingNext(load, jsonFname, names, doContinuations, addOntologyHeader, name, next);
  }

  /** Page `name` mapped into `g` after the pages `names`, which stay mapped. */
  method MapListedPage(metavoc: Graph, ghost rank: Term -> nat, pick: Chooser, settings: Settings,
                       quote: string -> string, uuids: Uuids, load: string -> Json, baseUri: string,
                       g: GraphStore, addOntologyHeader: bool, replaceNarrativeText: bool,
                       ghost names: seq<string>, ghost pages: seq<seq<FhirResource>>, name: string)
    returns (r: Result<bool, PyError>, ghost es: seq<FhirResource>)
    requires Acyclic(metavoc, rank) && g.Fresh()
    requires PagesMapped(load, names, pages, metavoc, baseUri, addOntologyHeader, replaceNarrativeText, g.triples)
    modifies g, uuids
    ensures old(g.triples) <= g.triples && g.Fresh()
    ensures r == Ok(false) ==> Classify(load(name), addOntologyHeader) == Ok(Unrecognised)
    ensures r == Ok(true) ==>
      && Classify(load(name), addOntologyHeader).Ok?
      && Classify(load(name), addOntologyHeader).value != Unrecognised
      && PagesMapped(load, names + [name], pages + [es], metavoc, baseUri, addOntologyHeader,
                     replaceNarrativeText, g.triples)
  {
    ghost var t0 := g.triples;
    r, es := MapPage(metavoc, rank, pick, settings, quote, uuids, baseUri, load(name), g,
                     addOntologyHeader, replaceNarrativeText);
    if r == Ok(true) {
      PagesMappedExtend(load, names, pages, name, es, metavoc, baseUri, addOntologyHeader, replaceNarrativeText,
                        t0, g.triples);
    }
  }

  /** The pages before keep their resources as the graph grows, and the new page joins them. */
  lemma PagesMappedExtend(load: string -> Json, names: seq<string>, pages: seq<seq<FhirResource>>, name: string,
                          es: seq<FhirResource>, vocabulary: Graph, baseUri: string, addOntologyHeader: bool,
                          replaceNarrativeText: bool, t: Graph, t': Graph)
    requires PagesMapped(load, names, pages, vocabulary, baseUri, addOntologyHeader, replaceNarrativeText, t)
    requires t <= t'
    requires PageMapped(load(name), es, vocabulary, baseUri, addOntologyHeader, replaceNarrativeText, t')
    ensures PagesMapped(load, names + [name], pages + [es], vocabulary, baseUri, addOntologyHeader,
                        replaceNarrativeText, t')
  {
    var ns, ps := names + [name], pages + [es];
    forall k | 0 <= k < |ns|
      ensures PageMapped(load(ns[k]), ps[k], vocabulary, baseUri, addOntologyHeader, replaceNarrativeText, t')
    {
      if k < |names| {
        assert ns[k] == names[k] && ps[k] == pages[k];
        PageMappedGrows(load(names[k]), pages[k], vocabulary, baseUri, addOntologyHeader, replaceNarrativeText, t, t');
      }
    }
  }

  lemma ChainExtend(load: string -> Json, jsonFname: string, names: seq<string>, next: string,
                    doContinuations: bool, addOntologyHeader: bool)
    requires Chain(load, jsonFname, names, doContinuations, addOntologyHeader)
    requires names == [] ==> next == jsonFname && jsonFname != ""
    requires names != [] ==>
      && Classify(load(names[|names| - 1]), addOntologyHeader).Ok?
      && Classify(load(names[|names| - 1]), addOntologyHeader).value != Unrecognised
      && NextPage(Continuation(doContinuations, load(names[|names| - 1]))) == Ok(Some(next))
    ensures Chain(load, jsonFname, names + [next], doContinuations, addOntologyHeader)
  {
    var ns := names + [next];
    forall k | 0 <= k < |ns| - 1
      ensures Classify(load(ns[k]), addOntologyHeader).Ok? && Classify(load(ns[k]), addOntologyHeader).value != Unrecognised
      ensures NextPage(Continuation(doContinuations, load(ns[k]))) == Ok(Some(ns[k + 1]))
    {
      assert ns[k] == names[k];
    }
  }

  /** A mapped page stays mapped as the graph grows. */
  lemma PageMappedGrows(data: Json, es: seq<FhirResource>, vocabulary: Graph, baseUri: string,
                        addOntologyHeader: bool, replaceNarrativeText: bool, t: Graph, t': Graph)
    requires PageMapped(data, es, vocabulary, baseUri, addOntologyHeader, replaceNarrativeText, t) && t <= t'
    ensures PageMapped(data, es, vocabulary, baseUri, addOntologyHeader, replaceNarrativeText, t')
  {
    match Classify(data, addOntologyHeader)
    case Ok(ResourcePage) =>
      MappedGrows(es[0], data, vocabulary, baseUri, addOntologyHeader, replaceNarrativeText, t, t');
    case Ok(CollectionPage(h)) =>
      AllMappedGrows(es, Resources(EntryList(data).value).value, vocabulary, baseUri, h, replaceNarrativeText, t, t');
    case _ =>
  }
}
