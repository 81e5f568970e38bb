# fhirtordf in Dafny

A model of the core of fhirtordf, which converts HL7 FHIR resources written in JSON into FHIR RDF
triples and compares two RDF graphs. The mapping is driven by the FHIR metadata vocabulary
(`fhir.ttl`), a read-only schema graph that says which predicates a type has, which types are
primitive, and which XSD datatype a primitive literal takes.

The model keeps the repository's structure, one module per source file:

- `FhirMetaVoc`: the vocabulary accessor. It covers field-tag-to-predicate maps inherited along
  the superclasses, atomic, primitive and complex handling, the XSD datatype of a literal, and
  the narrowing of date values by length.
- `FhirResourceRe`: the FHIR reference pattern as a hand-written matcher. It returns base, type,
  id and version and is proved sound and complete against the pattern's grammar.
  `FhirResourceTypes` holds the closed list of resource type names the pattern accepts.
- `FhirResourceLoader`: the resource mapper, a class that fills a shared `GraphStore` in place.
  The store holds a triple set and a fresh-blank-node counter. The module covers list indexing,
  atomic literals and value nodes, references, coding type arcs and the `_key` extension side
  channel. `CodeSystems` holds the code-system generators the type arcs use.
- `FhirCollectionLoader` and `FhirJsonLoader`: the collection driver, and the page loop that
  follows `next` links.
- `RdfCompare`: blank-node skolemization, the closure of a subject through blank nodes, and the
  report of differences.
- `FhirGraphUtils`, `UriUtils`, `DottedNamespace`, `NumericNamespace`, `Namespaces`, `PickleJar`
  and `RdflibFormats`: the graph query helpers, URI splitting, namespace builders, the prefix
  table, the signature-checked image cache and the serialization suffix table.
- `Wrappers`, `Strings`, `Json`, `Errors` and `Rdf`: the supporting values. These are an
  option/result pair; the string operations Python supplies; JSON documents as `jsonasobj`
  presents them; the Python exceptions the code raises; and RDF terms, triples and graphs with
  rdflib's pattern queries.

Modelling choices:

- A graph is a set of triples.
- Where rdflib yields "whichever object comes first" (`g.value`, iteration over a generator),
  the model uses a choice function, or a loop that picks any remaining element.
- A JSON object is an ordered sequence of members, and a repeated key keeps its last value.
- `urllib.parse.quote`, `uuid.uuid4` and `load` (reading a JSON file or URL) are parameters:
  an uninterpreted function, a supply of identifiers, and a map from names to documents.
- Recursion that terminates only on acyclic data carries a ranking function as a ghost
  parameter. Such recursion is the superclass walk, blank-node skolemization and closure.
  The unbounded page loop takes a fuel bound.

## Model

| member | source | states |
|---|---|---|
| DottedNamespace.NamespaceAttr | fhirtordf/rdfsupport/dottednamespace.py:12-19 | an attribute of the namespace (including `index`) is the URI spelled as the base followed by exactly the name |
| DottedNamespace.RefAttr | fhirtordf/rdfsupport/dottednamespace.py:35-36 | an attribute of a dotted URI is that URI followed by '.' and the name |
| DottedNamespace.ChainIsDotted | fhirtordf/rdfsupport/dottednamespace.py:35-36 | a chain of attributes spells every name after the URI, each preceded by a dot |
| DottedNamespace.DottedExamples | fhirtordf/rdfsupport/dottednamespace.py:12-36 | `FHIR.Patient.status` is `<base>Patient.status`; `index` gives `<base>index` |
| DottedNamespace.RefEqualsByText | fhirtordf/rdfsupport/dottednamespace.py:38-40 | two URIRefs are equal exactly when their texts are, in either direction |
| DottedNamespace.RefNeverEqualsOther | fhirtordf/rdfsupport/dottednamespace.py:38-42 | a value that is not a URIRef is never equal, even with the same text |
| NumericNamespace.NumericAttr | fhirtordf/rdfsupport/numericnamespace.py:14-15 | the URI is the base followed by the attribute name without its first character |
| NumericNamespace.NumericItem | fhirtordf/rdfsupport/numericnamespace.py:17-18 | an index names the base followed by the string key, or by an integer's decimal digits |
| NumericNamespace.ItemIsAttr | fhirtordf/rdfsupport/numericnamespace.py:14-18 | `ns[i]` is the same URI as `ns.C<digits of i>` |
| NumericNamespace.AttrInjective | fhirtordf/rdfsupport/numericnamespace.py:14-15 | two codes give the same URI if and only if they are the same code |
| NumericNamespace.ItemInjective | fhirtordf/rdfsupport/numericnamespace.py:17-18 | two integer indexes give the same URI if and only if they are equal |
| UriUtils.UriToIdeAndSource | fhirtordf/rdfsupport/uriutils.py:35-51 | a URI that is not a FHIR reference is split at its last '#', else at its last '/', so that source, separator and identifier rebuild the URI and the identifier holds no separator; with neither, the source is "UNKNOWN" |
| UriUtils.IdeAndSourceOfReference | fhirtordf/rdfsupport/uriutils.py:43-46 | on every FHIR reference the identifier is its id (after `Type/` when asked) and the source is its base group |
| UriUtils.SourceOfRelativeReference | fhirtordf/rdfsupport/uriutils.py:43-46 | a relative `Type/id` has no source and identifier `Type/id` |
| Namespaces.AnonNS.constructor | fhirtordf/rdfsupport/namespaces.py:54-59 | the new object's counter is the class counter plus one and its label is "ns" with that number |
| Namespaces.AnonLabel | fhirtordf/rdfsupport/namespaces.py:55-59 | because the class counter is never written, every anonymous namespace is labelled "ns1" |
| Namespaces.FirstKeyFor | fhirtordf/rdfsupport/namespaces.py:70 | the result is the key of the first entry, in insertion order, whose value is the URI; None exactly when no value is the URI |
| Namespaces.FirstKeyForStable | fhirtordf/rdfsupport/namespaces.py:68-70 | entries added after the first binding of a URI never change the key found for it |
| Namespaces.FirstKeyAt | fhirtordf/rdfsupport/namespaces.py:70 | the first entry bound to the URI decides the answer |
| Namespaces.InitialValuesDistinct | fhirtordf/rdfsupport/namespaces.py:43-51 | no two initial prefixes share a namespace URI |
| Namespaces.InitialPrefixFound | fhirtordf/rdfsupport/namespaces.py:43-70 | each initial namespace URI is found under its own prefix (fhir, owl, rdfs, rdf, xsd, w5, v2, v3, sct), whatever is added later |
| Namespaces.PrefixNameIsNotFound | fhirtordf/rdfsupport/namespaces.py:68-70 | the prefix name "owl" is a key, so nothing is added, and no value equals it, so the final lookup finds nothing |
| Namespaces.NamespaceTable.constructor | fhirtordf/rdfsupport/namespaces.py:43-51 | the table starts as the nine initial prefix bindings |
| Namespaces.NamespaceTable.NamespaceFor | fhirtordf/rdfsupport/namespaces.py:62-70 | when the URI is not a key, exactly one fresh anonymous key bound to it is appended, and nothing else changes; the result is the first key bound to the URI, or IndexError when there is none |
| Namespaces.NamespaceTable.NamespaceForCorrected | fhirtordf/rdfsupport/namespaces.py:62-70 | testing values instead of keys: the URI is appended only when no value equals it, and the lookup then always succeeds with its first key |
| RdflibFormats.SuffixFor | fhirtordf/rdfsupport/rdflibformats.py:9-31 | a listed format gives its table suffix; any other name is returned unchanged |
| RdflibFormats.SuffixExamples | fhirtordf/rdfsupport/rdflibformats.py:9-31 | xml→rdf, turtle→ttl, rdfa→html, nquads→nq, pretty-xml→xml, nt11→nt, ntriples→nt, and an unlisted name maps to itself |
| RdflibFormats.StrLeTotal | fhirtordf/rdfsupport/rdflibformats.py:26 | Python's string order, used by `sorted`, is total |
| RdflibFormats.StrLeTransitive | fhirtordf/rdfsupport/rdflibformats.py:26 | Python's string order is transitive |
| RdflibFormats.StrLeReflexive | fhirtordf/rdfsupport/rdflibformats.py:26 | Python's string order is reflexive |
| RdflibFormats.Insert | fhirtordf/rdfsupport/rdflibformats.py:26 | inserting into a sorted list keeps it sorted and adds exactly that element |
| RdflibFormats.Sort | fhirtordf/rdfsupport/rdflibformats.py:26 | `sorted` returns a sorted permutation of its input |
| RdflibFormats.Selected | fhirtordf/rdfsupport/rdflibformats.py:26-27 | a name is kept exactly when some plugin of the requested kind has it and it holds no '/' unless MIME types are asked for |
| RdflibFormats.KnownFormats | fhirtordf/rdfsupport/rdflibformats.py:20-27 | the result is sorted, is a permutation of the selected names, and holds no MIME-type name unless asked for |
| RdflibFormats.SortedPairwise | fhirtordf/rdfsupport/rdflibformats.py:26 | in a sorted list every element is at or below every later one |
| PickleJar.PathJoin | fhirtordf/fhir/picklejar.py:100-101 | `os.path.join`: an absolute second part replaces the first; otherwise the result starts with the first part and ends with the second |
| PickleJar.IndexPath | fhirtordf/fhir/picklejar.py:58-60 | there is an index path exactly when there is a cache directory |
| PickleJar.RelativeJoinTwice | fhirtordf/fhir/picklejar.py:100-101 | joining the relative directory "cache" with a location that already holds it gives "cache/cache/u1" |
| PickleJar.FileStore.Remove | fhirtordf/fhir/picklejar.py:100 | `os.remove` deletes the file when it exists and is FileNotFoundError, changing nothing, when it does not |
| PickleJar.Jar.constructor | fhirtordf/fhir/picklejar.py:77-89 | a jar loads the index stored for its directory, or starts empty and writes an empty index; without a directory nothing is written |
| PickleJar.Jar.Update | fhirtordf/fhir/picklejar.py:123-126 | the index is written to the index path when there is a cache directory, and nothing changes otherwise |
| PickleJar.Jar.Add | fhirtordf/fhir/picklejar.py:91-105 | without a directory nothing changes; otherwise the old image, looked for at the directory joined with its stored location, is removed, the object is stored at the directory joined with the new uid and recorded with its signature, and the index is written |
| PickleJar.Jar.AddCorrected | fhirtordf/fhir/picklejar.py:91-105 | as `Add`, but the old image is removed at its stored location |
| PickleJar.Jar.Replace | fhirtordf/fhir/picklejar.py:99-105 | the stale file is removed (or FileNotFoundError), then the new image and its entry are stored and the index written |
| PickleJar.Jar.Get | fhirtordf/fhir/picklejar.py:107-121 | a name never added gives None; a different signature gives None, evicts the entry and rewrites the index when there is a directory; otherwise the stored object is returned, or FileNotFoundError when its file is gone; stored images are untouched |
| PickleJar.Jar.Clear | fhirtordf/fhir/picklejar.py:135-148 | with a directory the stored index must exist (else AssertionError); every file it names is removed and an empty index written; the jar's index is then empty |
| PickleJar.Factory.constructor | fhirtordf/fhir/picklejar.py:34-36 | the factory starts with no jar and the `.cache` directory under the home directory |
| PickleJar.Factory.Picklejar | fhirtordf/fhir/picklejar.py:43-47 | the existing jar is returned; otherwise a fresh one is built for the cache directory and kept, holding the index stored there, or an empty index that it writes when none is stored |
| PickleJar.Factory.SetCacheDirectory | fhirtordf/fhir/picklejar.py:53-56 | setting the directory drops the current jar |
| PickleJar.Factory.CacheDirectoryIndex | fhirtordf/fhir/picklejar.py:58-60 | there is an index path exactly when there is a directory |
| PickleJar.Factory.Clear | fhirtordf/fhir/picklejar.py:38-41 | with no jar, or a jar without a cache directory, the store is unchanged; a jar whose stored index is missing is an AssertionError and is kept with its index; otherwise every file the stored index names is removed, an empty index is written, and the jar is dropped |
| PickleJar.AddThenGet | fhirtordf/fhir/picklejar.py:91-121 | adding a new name and then getting it with the same signature returns the object |
| PickleJar.AddThenGetWithoutDirectory | fhirtordf/fhir/picklejar.py:88-115 | without a cache directory, an added object is never found |
| PickleJar.ReAddWithRelativeDirectory | fhirtordf/fhir/picklejar.py:99-101 | with the relative directory "cache", adding a name a second time fails with FileNotFoundError |
| PickleJar.ReAddWithRelativeDirectoryCorrected | fhirtordf/fhir/picklejar.py:99-104 | with the corrected add the second image replaces the first and is found |
| FhirGraphUtils.Converted | fhirtordf/rdfsupport/fhirgraphutils.py:49-53 | `toPython` applies to literals only: a converted result is never empty, and it is a converted literal exactly when the term is a literal |
| FhirGraphUtils.ValuesOfNodes | fhirtordf/rdfsupport/fhirgraphutils.py:46 | the set of inner values holds exactly the `fhir:value` of each blank-node object |
| FhirGraphUtils.ValueOf | fhirtordf/rdfsupport/fhirgraphutils.py:38-53 | no object gives None; all-blank-node objects (predicate other than `fhir:value`) are read through their `fhir:value`, where two distinct inner values are a UniquenessError (TypeError when one is missing, as the message join fails) and a single missing one is an AttributeError unless `asLiteral`; otherwise two objects are a UniquenessError and one object is returned, converted when it is a literal and `asLiteral` is unset |
| FhirGraphUtils.ValueOfSound | fhirtordf/rdfsupport/fhirgraphutils.py:41-53 | every value returned is an object of (subject, predicate) or the `fhir:value` of such an object that is a blank node |
| FhirGraphUtils.ValueThroughNode | fhirtordf/rdfsupport/fhirgraphutils.py:45-49 | a property whose only object is a blank node with one `fhir:value` has that value, as a term with `asLiteral` and converted without |
| FhirGraphUtils.AsLiteralIsTerm | fhirtordf/rdfsupport/fhirgraphutils.py:49-53 | with `asLiteral` set, `value` never returns a converted literal |
| FhirGraphUtils.ExtensionValuePredicates | fhirtordf/rdfsupport/fhirgraphutils.py:61-63 | exactly the predicates of the extension node whose text contains "Extension.value" |
| FhirGraphUtils.Extension | fhirtordf/rdfsupport/fhirgraphutils.py:56-65 | when every extension of the node has another url or no value predicate the result is None; otherwise it comes from an extension that does not pass: its url lookup's error, or the value of one of its value predicates |
| FhirGraphUtils.SystemMatches | fhirtordf/rdfsupport/fhirgraphutils.py:73 | an absent or empty system accepts every coding |
| FhirGraphUtils.FirstCodingValue | fhirtordf/rdfsupport/fhirgraphutils.py:72-75 | no coding in the requested system gives None; otherwise the result is the system lookup's error of some coding, or the value of `resultPred` on a coding whose system matches |
| FhirGraphUtils.Code | fhirtordf/rdfsupport/fhirgraphutils.py:68-75 | a falsy concept node gives None, as does a concept none of whose codings has the system; when some coding's system test does not say no, the result is the system lookup's error or the `Coding.code` of such a coding; a code returned is that of a coding in the system |
| FhirGraphUtils.ConceptUri | fhirtordf/rdfsupport/fhirgraphutils.py:78-85 | as `code`, but returning the coding's `rdf:type`, which is never converted |
| FhirGraphUtils.Link | fhirtordf/rdfsupport/fhirgraphutils.py:88-102 | no link URI means no type; a falsy link node gives (None, None); a link found is the `fhir:link` of an object of (subject, predicate) and its type is that link's `rdf:type` |
| FhirGraphUtils.LinkFound | fhirtordf/rdfsupport/fhirgraphutils.py:96-101 | a unique truthy link node with a unique truthy link gives that link and its type |
| FhirGraphUtils.ValueNotAny | fhirtordf/rdfsupport/fhirgraphutils.py:150 | `g.value(..., any=False)`: no object is None, one object is that object, two or more are a UniquenessError |
| FhirGraphUtils.ConceptOf | fhirtordf/rdfsupport/fhirgraphutils.py:153-156 | a concept is made only from a coding whose system and code are both truthy and whose system is the requested one, carrying exactly those values and the coding's unique `rdf:type` |
| FhirGraphUtils.CollectedStep | fhirtordf/rdfsupport/fhirgraphutils.py:152-156 | one more coding keeps the collection invariant: it is appended exactly when it gives a concept |
| FhirGraphUtils.CollectConcepts | fhirtordf/rdfsupport/fhirgraphutils.py:152-157 | success lists, without repetition, every accepted coding's concept and nothing else; a failure is the error of some coding, so when no coding fails the loop succeeds |
| FhirGraphUtils.CodeableConceptCode | fhirtordf/rdfsupport/fhirgraphutils.py:125-157 | two entries are a UniquenessError; no entry or a falsy one gives []; with one truthy entry a success lists, without repetition, the concepts of exactly the codings that give one; with at most one entry a failure is the error of one of the entry's codings, and when none of them fails the result is a success |
| RdfCompare.LocalName | fhirtordf/rdfsupport/rdfcompare.py:46 | the text after the last '/': it holds no '/', and the predicate is some head, a '/', and it |
| RdfCompare.SubjPredIdxToUri | fhirtordf/rdfsupport/rdfcompare.py:38-46 | a predicate without '/' is an IndexError; otherwise the URI is the subject, '.', the predicate's last step and `_idx` when an index is given, so it starts with the subject and a dot |
| RdfCompare.SkolemNameStarts | fhirtordf/rdfsupport/rdfcompare.py:46 | a skolem name starts with its subject followed by `.` |
| RdfCompare.SkolemNameInjective | fhirtordf/rdfsupport/rdfcompare.py:46 | under one subject and predicate, distinct list positions (or a position and none) give distinct URIs |
| RdfCompare.SubjPredIdxOfJoin | fhirtordf/rdfsupport/rdfcompare.py:46 | a predicate `head/local` with no '/' in `local` names the node `s.local` plus `_idx` |
| RdfCompare.SubjPredIdxExample | fhirtordf/rdfsupport/rdfcompare.py:38-46 | `Patient/f001` through `fhir:Patient.identifier` at position 0 is `Patient/f001.Patient.identifier_0` |
| RdfCompare.AcyclicSubset | fhirtordf/rdfsupport/rdfcompare.py:101-104 | a part of a graph without blank-node cycles has none either |
| RdfCompare.ClosureProperties | fhirtordf/rdfsupport/rdfcompare.py:89-105 | the transitive definition of a subject lies in the graph, holds every triple of the subject, and holds every triple of each blank node it reaches |
| RdfCompare.ClosureRankFree | fhirtordf/rdfsupport/rdfcompare.py:89-105 | the definition depends only on the graph, not on the ranking used to show that the walk ends |
| RdfCompare.CompleteDefinition | fhirtordf/rdfsupport/rdfcompare.py:89-105 | the target graph gains exactly the transitive definition of the subject |
| RdfCompare.MapNode | fhirtordf/rdfsupport/rdfcompare.py:49-63 | fails, with IndexError, exactly when some reachable blank-node edge has a predicate without '/'; on success the output gains exactly the copies of the subject's triples under its new name, blank objects renamed by path and mapped in turn |
| RdfCompare.AnonSubjects | fhirtordf/rdfsupport/rdfcompare.py:75 | the unreferenced-blank-node test takes the length of a one-element list, so it selects nothing |
| RdfCompare.UriSubjects | fhirtordf/rdfsupport/rdfcompare.py:84 | exactly the URIs in subject position |
| RdfCompare.Skolemize | fhirtordf/rdfsupport/rdfcompare.py:66-86 | the result is the union of the maps of every URI subject onto itself, or IndexError when one of them fails |
| RdfCompare.MapNodeNoBNodes | fhirtordf/rdfsupport/rdfcompare.py:57-63 | no mapped triple has a blank node as subject or object |
| RdfCompare.SkolemizedHasNoBNodes | fhirtordf/rdfsupport/rdfcompare.py:66-86 | the skolemized graph holds no blank node |
| RdfCompare.SkolemizedKeepsUriTriples | fhirtordf/rdfsupport/rdfcompare.py:57-85 | a triple whose subject is a URI and whose object is not a blank node survives skolemization unchanged |
| RdfCompare.MapNodeRankFree | fhirtordf/rdfsupport/rdfcompare.py:49-63 | what a map adds, and whether it fails, depends only on the graph |
| RdfCompare.SkolemRankFree | fhirtordf/rdfsupport/rdfcompare.py:66-86 | the skolemized graph depends only on the input graph |
| RdfCompare.NamedEdgesSubset | fhirtordf/rdfsupport/rdfcompare.py:49-63 | fewer triples keep every edge from a subject into a blank node named by a predicate with a '/' |
| RdfCompare.SkolemSubset | fhirtordf/rdfsupport/rdfcompare.py:66-86 | a part of a graph that `skolemize` accepts is accepted too |
| RdfCompare.SubjectDiffOk | fhirtordf/rdfsupport/rdfcompare.py:128-161 | when both graphs skolemize, every subject's comparison succeeds |
| RdfCompare.IgnoreTypeArcs | fhirtordf/rdfsupport/rdfcompare.py:130-133 | removes exactly the `rdf:type` triples from a blank node to a URI |
| RdfCompare.IgnoreOwlVersion | fhirtordf/rdfsupport/rdfcompare.py:134-135 | removes only a `owl:versionIRI` triple of the subject: exactly one when there is one, none otherwise |
| RdfCompare.SubjectGraphIn | fhirtordf/rdfsupport/rdfcompare.py:128-136 | a subject's graph, after the ignore options, lies within the whole graph |
| RdfCompare.GraphForSubject | fhirtordf/rdfsupport/rdfcompare.py:128-136 | the definition of the subject with the type arcs and the version removed as the options ask |
| RdfCompare.DiffSubject | fhirtordf/rdfsupport/rdfcompare.py:157-161 | the two skolemized subject graphs' differences in each direction, passed through the filter when there is one |
| RdfCompare.SelfDiffEmpty | fhirtordf/rdfsupport/rdfcompare.py:157-162 | a graph compared with itself without a filter shows no difference for any subject |
| RdfCompare.ReportedStep | fhirtordf/rdfsupport/rdfcompare.py:148-168 | adding a section for a subject not yet reported keeps one section per subject |
| RdfCompare.MissingDefinition | fhirtordf/rdfsupport/rdfcompare.py:148-153 | the section of a subject of one graph only holds its definition in that graph |
| RdfCompare.ReportMissing | fhirtordf/rdfsupport/rdfcompare.py:148-153 | one section per missing subject, each holding its definition, and no other section |
| RdfCompare.DiffCoveredMono | fhirtordf/rdfsupport/rdfcompare.py:156-168 | a reported difference stays reported when sections are added |
| RdfCompare.ReportDifference | fhirtordf/rdfsupport/rdfcompare.py:156-168 | one common subject keeps the invariant that every non-empty difference has its section, or gives the skolemization's error |
| RdfCompare.DiffsReportedStep | fhirtordf/rdfsupport/rdfcompare.py:156-168 | appending the section of one more subject, when its difference is not empty, keeps the report invariant |
| RdfCompare.ReportedNext | fhirtordf/rdfsupport/rdfcompare.py:162-168 | the report keeps one section per subject when a new subject is handled |
| RdfCompare.SectionsNext | fhirtordf/rdfsupport/rdfcompare.py:162-168 | every section stays a non-empty difference when the new one is appended |
| RdfCompare.CoveredNext | fhirtordf/rdfsupport/rdfcompare.py:156-168 | every subject handled so far, and the new one, has its non-empty difference reported |
| RdfCompare.ReportDifferences | fhirtordf/rdfsupport/rdfcompare.py:156-168 | at most one section per common subject, each a non-empty difference, every non-empty difference reported; a failure is some subject's error |
| RdfCompare.ConcatReported | fhirtordf/rdfsupport/rdfcompare.py:145-168 | the report of disjoint subject sets, concatenated, is a report of their union with exactly their sections |
| RdfCompare.CompareSubjects | fhirtordf/rdfsupport/rdfcompare.py:145-168 | one section per subject of one set only, with its definition, one per common subject whose difference is not empty, and nothing else; it fails exactly when some common subject's comparison fails, and then with that subject's error |
| RdfCompare.PrimarySubjects | fhirtordf/rdfsupport/rdfcompare.py:138-141 | as written, the URI subjects of the first graph, whatever graph is asked for |
| RdfCompare.PrimarySubjectsCorrected | fhirtordf/rdfsupport/rdfcompare.py:138-141 | the URI subjects of the graph asked for |
| RdfCompare.Compare | fhirtordf/rdfsupport/rdfcompare.py:117-169 | as written: differences of the first graph's subjects only, and an empty report whenever the first graph has no URI subject; it fails exactly when one of those subjects' comparison fails, never when both graphs skolemize; a graph that skolemizes compared with itself gives an empty report |
| RdfCompare.CompareCorrected | fhirtordf/rdfsupport/rdfcompare.py:117-169 | subjects of either graph only are reported with their definitions, common subjects by their differences; an empty first graph reports every subject of the second; it fails exactly when a common subject's comparison fails, never when both graphs skolemize; a graph that skolemizes compared with itself gives an empty report |
| FhirMetaVoc.EntrySubject | fhirtordf/fhir/fhirmetavoc.py:50-57 | a bare name becomes the FHIR URI of that name; a URI is used as it is |
| FhirMetaVoc.ToStr | fhirtordf/fhir/fhirmetavoc.py:59-68 | every occurrence of the FHIR namespace is removed; the tag is the text after the last '.' of the rest, or all of it when it has no '.', and holds no '.' |
| FhirMetaVoc.ToStrOfFhirPath | fhirtordf/fhir/fhirmetavoc.py:59-68 | a FHIR property URI `fhir:path.tag` gives `tag` |
| FhirMetaVoc.ToStrExample | fhirtordf/fhir/fhirmetavoc.py:63 | `http://hl7.org/fhir/Provenance.agent.whoReference` gives `whoReference` |
| FhirMetaVoc.StructuralParents | fhirtordf/fhir/fhirmetavoc.py:76-77 | exactly the superclasses that are URIs outside the W5 namespace |
| FhirMetaVoc.OwnPredicates | fhirtordf/fhir/fhirmetavoc.py:79 | exactly the properties whose `rdfs:domain` is the class |
| FhirMetaVoc.InheritedPredicatesIn | fhirtordf/fhir/fhirmetavoc.py:76-78 | a property is inherited exactly when it is a property, own or inherited, of one of the structural superclasses |
| FhirMetaVoc.InheritedTags | fhirtordf/fhir/fhirmetavoc.py:75-78 | the merged map of the superclasses has exactly their properties' tags, each bound to a property with that tag |
| FhirMetaVoc.InheritedStep | fhirtordf/fhir/fhirmetavoc.py:76-78 | merging one more superclass adds exactly its properties |
| FhirMetaVoc.InheritedAll | fhirtordf/fhir/fhirmetavoc.py:76-78 | once every superclass is merged, the inherited properties are those of the structural ones |
| FhirMetaVoc.MergeTagMaps | fhirtordf/fhir/fhirmetavoc.py:78 | `update` of two tag maps is a tag map of the union of their properties |
| FhirMetaVoc.TagMapAdd | fhirtordf/fhir/fhirmetavoc.py:79-80 | writing an own property under its tag keeps the tag map, and own properties win over inherited ones |
| FhirMetaVoc.Predicates | fhirtordf/fhir/fhirmetavoc.py:70-81 | the keys are exactly the tags of the class's own and inherited properties, each bound to a property with that tag, and a tag of an own property is bound to an own property |
| FhirMetaVoc.PredicateType | fhirtordf/fhir/fhirmetavoc.py:83-89 | None exactly when the property has no `rdfs:range`; otherwise one of its ranges |
| FhirMetaVoc.HasType | fhirtordf/fhir/fhirmetavoc.py:91-92 | true exactly when the type is the subject of some triple of the vocabulary |
| FhirMetaVoc.IsValid | fhirtordf/fhir/fhirmetavoc.py:94-101 | true for a type that is the subject of some triple, TypeError for any other |
| FhirMetaVoc.IsPrimitive | fhirtordf/fhir/fhirmetavoc.py:103-109 | true exactly when `fhir:Primitive` is a direct superclass of the type |
| FhirMetaVoc.TypeCandidates | fhirtordf/fhir/fhirmetavoc.py:118-128 | for `valueX` the names X and X with a lower-case first letter are tried before the tag itself; any other tag tries only itself |
| FhirMetaVoc.FirstKnown | fhirtordf/fhir/fhirmetavoc.py:118-128 | the first candidate that names a known type, with no earlier one known; None when none is known |
| FhirMetaVoc.ValuePredicateToType | fhirtordf/fhir/fhirmetavoc.py:111-128 | the first known candidate, as a FHIR URI; TypeError when none is known |
| FhirMetaVoc.ValuePredicateToTypeKnown | fhirtordf/fhir/fhirmetavoc.py:111-128 | whatever is returned is a known type, and the error comes exactly when no candidate is known |
| FhirMetaVoc.IsAtom | fhirtordf/fhir/fhirmetavoc.py:130-141 | an unknown predicate is not atomic when its text contains ".value" and a TypeError otherwise; a known one is atomic exactly when it is `fhir:nodeRole` or typed `owl:DatatypeProperty` |
| FhirMetaVoc.PrimitiveDatatype | fhirtordf/fhir/fhirmetavoc.py:143-154 | None when no superclass is a restriction on `fhir:value`; otherwise the `owl:allValuesFrom` of such a restriction |
| FhirMetaVoc.NarrowDate | fhirtordf/fhir/fhirmetavoc.py:165-166 | four characters give `xsd:gYear`, seven `xsd:gYearMonth`, ten or a zone sign after the date `xsd:date`, anything else `xsd:dateTime` |
| FhirMetaVoc.NoStringDatatype | fhirtordf/fhir/fhirmetavoc.py:164-170 | a dateTime value measured with the date switch on (a truthy one) is narrowed by its length when it is a string and is a TypeError of `len` when it is not; a falsy or absent value, or the switch off, keeps `xsd:dateTime`; otherwise never `xsd:string`, never `xsd:anyURI` with the oid switch on, and other types unchanged; the error comes exactly in that case |
| FhirMetaVoc.DateTimeValueExamples | fhirtordf/fhir/fhirmetavoc.py:164-166 | "2009" narrows to `xsd:gYear`; a number or `true` given for a dateTime is a TypeError with the date switch on, and keeps `xsd:dateTime` with it off; a zero is falsy and keeps `xsd:dateTime` |
| FhirMetaVoc.PrimitiveDatatypeNoString | fhirtordf/fhir/fhirmetavoc.py:156-170 | the datatype decision applied to the restriction's `owl:allValuesFrom`, or to None when there is none: never `xsd:string`, never `xsd:anyURI` with the oid switch on, and a failure only as the TypeError of a truthy non-string value with the date switch on, so a call without a value never fails |
| FhirMetaVoc.NoStringChoiceNotString | fhirtordf/fhir/fhirmetavoc.py:156-170 | every datatype `primitive_datatype_nostring` can give is never `xsd:string`, and never `xsd:anyURI` with the oid switch on; every failure is the TypeError of measuring a truthy value that is not a string with the date switch on |
| FhirMetaVoc.NoStringChoiceUnique | fhirtordf/fhir/fhirmetavoc.py:143-170 | with exactly one restriction superclass the datatype is the decision applied to its `owl:allValuesFrom`, whatever the store's order |
| FhirMetaVoc.NoStringChoiceNone | fhirtordf/fhir/fhirmetavoc.py:143-170 | a type without a restriction superclass on `fhir:value` gets no datatype and no error |
| FhirResourceTypes.ResourceTypesHaveNoSlash | fhirtordf/rdfsupport/fhirresourcere.py:37-54 | no resource type of the pattern's alternation holds a slash or is `_history` |
| FhirResourceTypes.TypeHasNoSlash | fhirtordf/rdfsupport/fhirresourcere.py:37-54 | each listed type holds no slash and differs from `_history` |
| FhirResourceTypes.SomeResourceTypes | fhirtordf/rdfsupport/fhirresourcere.py:37-49 | `Account` and `Patient` are among the resource types |
| FhirResourceRe.Match | fhirtordf/rdfsupport/fhirresourcere.py:36-62 | `FHIR_RESOURCE_RE.match`: every match found has well-formed groups (an http or https base of allowed characters ending in '/', a listed type, ids of 1 to 64 allowed characters) and spans the whole text, up to the one final newline that `$` allows |
| FhirResourceRe.MatchIn | fhirtordf/rdfsupport/fhirresourcere.py:36-56 | over any set of type names, a match has well-formed groups and spans the text up to a final newline |
| FhirResourceRe.MatchWhole | fhirtordf/rdfsupport/fhirresourcere.py:36-55 | a match of the text without its final newline has well-formed groups and renders back to exactly that text |
| FhirResourceRe.MatchVersioned | fhirtordf/rdfsupport/fhirresourcere.py:55 | the `/_history/version` reading has well-formed groups, holds a version and renders back to its text |
| FhirResourceRe.MatchHead | fhirtordf/rdfsupport/fhirresourcere.py:36-55 | the `[base]Type/id` reading has a well-formed base, a listed type and a well-formed id, keeps the version given, and its head is the text read |
| FhirResourceRe.MatchComplete | fhirtordf/rdfsupport/fhirresourcere.py:36-62 | every well-formed set of groups is found again, exactly, in the text it spans, with or without a final newline |
| FhirResourceRe.MatchInComplete | fhirtordf/rdfsupport/fhirresourcere.py:36-56 | over slash-free type names, a rendered match is found again, with or without a final newline |
| FhirResourceRe.RenderEndsInIdChar | fhirtordf/rdfsupport/fhirresourcere.py:55 | a rendered reference ends with an id character, never a newline |
| FhirResourceRe.MatchWholeComplete | fhirtordf/rdfsupport/fhirresourcere.py:36-55 | a rendered match is found again in its own text |
| FhirResourceRe.MatchHeadComplete | fhirtordf/rdfsupport/fhirresourcere.py:36-55 | the head of a match is read back into the same groups |
| FhirResourceRe.MatchVersionedOfHead | fhirtordf/rdfsupport/fhirresourcere.py:55 | text without a version never takes the `/_history/` reading |
| FhirResourceRe.HeadSplits | fhirtordf/rdfsupport/fhirresourcere.py:36-55 | the last two slashes of `[base]Type/id` separate the id and the type |
| FhirResourceRe.MatchBare | fhirtordf/rdfsupport/fhirresourcere.py:36-62 | a listed type, a slash and a well-formed id match with exactly that type and id, no base and no version |
| FhirResourceRe.MatchInBare | fhirtordf/rdfsupport/fhirresourcere.py:36-56 | over any slash-free type names, `Type/id` matches with exactly that type and id, no base and no version |
| FhirResourceRe.MatchBased | fhirtordf/rdfsupport/fhirresourcere.py:36-62 | an accepted base followed by `Type/id` matches with that base, type and id and no version |
| FhirResourceRe.MatchInBased | fhirtordf/rdfsupport/fhirresourcere.py:36-56 | over any slash-free type names, `[base]Type/id` matches with that base, type and id and no version |
| FhirResourceRe.MatchAccount | fhirtordf/rdfsupport/fhirresourcere.py:36-62 | over any slash-free type names that include Account, `Account/example` matches with type Account, id example, no base and no version |
| FhirResourceRe.MatchWithBase | fhirtordf/rdfsupport/fhirresourcere.py:36-62 | over any slash-free type names that include Patient, `http://fhir.org/hl7/Patient/sample12345` matches with that base, kept with its final slash |
| FhirResourceRe.ExampleBase | fhirtordf/rdfsupport/fhirresourcere.py:36 | `http://fhir.org/hl7/` is a base the pattern accepts |
| FhirResourceRe.MatchBareType | fhirtordf/rdfsupport/fhirresourcere.py:36-55 | a type with no id does not match |
| CodeSystems.SetDefault | fhirtordf/loaders/fhirresourceloader.py:48 | `setdefault` adds the key, keeps every existing binding, and binds a new key to the value given |
| CodeSystems.PrefixFor | fhirtordf/loaders/fhirresourceloader.py:57-69 | the v3 generator's prefix starts with `v3-`, the v2 one's with `v2-`, and the other HL7 one's holds no '/' |
| CodeSystems.Generate | fhirtordf/loaders/fhirresourceloader.py:47-69 | each generator adds its prefix without rebinding one; SNOMED mints a URI exactly for an all-digit code, the others always; the URI ends with the code and, under a new prefix, is that prefix's namespace followed by the code (after a '/' for the HL7 systems) |
| CodeSystems.FirstMatch | fhirtordf/loaders/fhirresourceloader.py:211-212 | the first table entry, in insertion order, whose key matches the system, with no earlier entry matching; None when none does |
| CodeSystems.KeyMatches | fhirtordf/loaders/fhirresourceloader.py:73-77 | an exact key matches only its own text; a pattern matches only a system at least as long as its literal, and `[a-z-]+` needs a lower-case letter or a dash right after it |
| CodeSystems.TypeArc | fhirtordf/loaders/fhirresourceloader.py:209-216 | no matching entry gives no type and the same map; otherwise the map gains at most one prefix and rebinds none, and a type URI ends with the code |
| CodeSystems.TypeArcAnyMap | fhirtordf/loaders/fhirresourceloader.py:211-214 | the type minted does not depend on the prefixes bound so far |
| CodeSystems.TypeArcLoinc | fhirtordf/loaders/fhirresourceloader.py:47-49 | a LOINC coding mints `loinc:code` and binds `loinc` |
| CodeSystems.TypeArcSnomed | fhirtordf/loaders/fhirresourceloader.py:52-54 | a SNOMED CT coding mints a type exactly when its code is all digits |
| CodeSystems.NotExact | fhirtordf/loaders/fhirresourceloader.py:73-74 | an HL7 system URI matches neither exact key |
| CodeSystems.TypeArcHl7 | fhirtordf/loaders/fhirresourceloader.py:57-77 | a system that one of the HL7 patterns matches mints system + '/' + code |
| CodeSystems.V3Matches | fhirtordf/loaders/fhirresourceloader.py:75 | every system under the v3 base matches the v3 pattern |
| CodeSystems.TypeArcV3Prefix | fhirtordf/loaders/fhirresourceloader.py:57-59 | a v3 system binds the new prefix `v3-` + its name to the system itself |
| CodeSystems.V3FirstMatch | fhirtordf/loaders/fhirresourceloader.py:73-75 | a system under the HL7 v3 base is first matched by the v3 pattern, the third entry of the table |
| FhirResourceLoader.IndexLiteralInjective | fhirtordf/loaders/fhirresourceloader.py:254-266 | distinct list positions get distinct `fhir:index` literals |
| FhirResourceLoader.AtomValue | fhirtordf/loaders/fhirresourceloader.py:277-280 | an atomic value is written as its literal, except a narrative `div` with replacement on, which becomes the boilerplate text when longer than 120 characters; measuring a value that has no length is a TypeError |
| FhirResourceLoader.OntologyTriples | fhirtordf/loaders/fhirresourceloader.py:139-144 | the header declares `<uri>.ttl` an `owl:Ontology` importing `fhir.ttl`, with a `owl:versionIRI` `<uri>.ttl/_history/<versionId>` exactly when there is a version id, and says nothing about any other subject |
| FhirResourceLoader.ReferenceTarget | fhirtordf/loaders/fhirresourceloader.py:193-203 | a well-formed absolute reference links to itself and a relative one to the base plus the quoted text, typed by the pattern's resource type; other text with "://" links to itself as a Resource; other text not starting with '#' or '/' resolves against a non-empty base, typed by what precedes its first '/'; an empty target gives no link |
| FhirResourceLoader.RelativeReference | fhirtordf/loaders/fhirresourceloader.py:195-197 | a well-formed reference without base links to the base plus the quoted reference, typed by its resource type |
| FhirResourceLoader.AbsoluteReference | fhirtordf/loaders/fhirresourceloader.py:196-197 | a well-formed reference with a base links to itself |
| FhirResourceLoader.ReferenceTriples | fhirtordf/loaders/fhirresourceloader.py:204-207 | a reference adds its `fhir:link` and the target's `rdf:type` together, or nothing |
| FhirResourceLoader.TypeArcOf | fhirtordf/loaders/fhirresourceloader.py:209-216 | nothing unless the coding has both system and code; a non-string system is a TypeError; otherwise the code-system table decides on the quoted code, and existing prefix bindings are kept |
| FhirResourceLoader.MemberOf | fhirtordf/loaders/fhirresourceloader.py:246 | `obj[key]` of a present member is that member's value, smaller than the object |
| FhirResourceLoader.SlashedBase | fhirtordf/loaders/fhirresourceloader.py:103 | the base gets a '/' unless it already ends in '/' or '#' |
| FhirResourceLoader.Uuids.Uuid4 | fhirtordf/loaders/fhirresourceloader.py:110 | each call draws the next identifier of the supply |
| FhirResourceLoader.IndexedNodesExtend | fhirtordf/loaders/fhirresourceloader.py:248-274 | a list node indexed at the next position and linked from the subject extends the indexed list |
| FhirResourceLoader.FreshInOrderExtend | fhirtordf/loaders/fhirresourceloader.py:250 | a node newer than all earlier ones keeps the list's nodes fresh and in increasing order |
| FhirResourceLoader.FreshNodesUnused | fhirtordf/loaders/fhirresourceloader.py:250 | nodes newer than the graph's supply occur in none of its triples |
| FhirResourceLoader.FhirResource.constructor | fhirtordf/loaders/fhirresourceloader.py:106-117 | the mapper keeps the vocabulary, base, subject, type, shared graph and switches given, and starts with no extra prefix |
| FhirResourceLoader.FhirResource.Add | fhirtordf/loaders/fhirresourceloader.py:146-155 | `add` puts exactly one triple into the shared graph |
| FhirResourceLoader.FhirResource.AddOntologyDefinition | fhirtordf/loaders/fhirresourceloader.py:139-144 | adds exactly the ontology header; a version id that is not a string is a TypeError after the first two triples |
| FhirResourceLoader.FhirResource.AddReference | fhirtordf/loaders/fhirresourceloader.py:187-207 | a string reference adds exactly its link and type, or nothing; any other value is a TypeError leaving the graph as it was |
| FhirResourceLoader.FhirResource.AddTypeArc | fhirtordf/loaders/fhirresourceloader.py:209-216 | the subject gets exactly the type the table mints, if any, and the extra prefixes become those the generator leaves; an error changes nothing |
| FhirResourceLoader.FhirResource.NodeType | fhirtordf/loaders/fhirresourceloader.py:166-171 | the value type given, else the predicate's range; a generic `fhir:Resource` becomes the value's own `resourceType`, whose absence is an error; no type at all is a TypeError |
| FhirResourceLoader.FhirResource.SingularTypeOf | fhirtordf/loaders/fhirresourceloader.py:276 | the value type given wins; otherwise the predicate's `rdfs:range`, none exactly when it has none, and a range of the predicate when the store's choice is fair |
| FhirResourceLoader.FhirResource.CodingTypeAnyMap | fhirtordf/loaders/fhirresourceloader.py:209-216 | a coding's type arc, and whether it fails, do not depend on the prefixes bound so far |
| FhirResourceLoader.FhirResource.MemberGrows | fhirtordf/loaders/fhirresourceloader.py:229-292 | a member's mapping stays in the graph as the graph grows |
| FhirResourceLoader.FhirResource.ValueGrows | fhirtordf/loaders/fhirresourceloader.py:275-291 | a single value's mapping stays as the graph grows |
| FhirResourceLoader.FhirResource.NodeGrows | fhirtordf/loaders/fhirresourceloader.py:281-291 | a value node's mapping stays as the graph grows |
| FhirResourceLoader.FhirResource.NodeBodyGrows | fhirtordf/loaders/fhirresourceloader.py:157-185 | the members under a value node stay as the graph grows |
| FhirResourceLoader.FhirResource.MemberEffectGrows | fhirtordf/loaders/fhirresourceloader.py:173-185 | one property's effect under a value node stays as the graph grows |
| FhirResourceLoader.FhirResource.ChoicesGrow | fhirtordf/loaders/fhirresourceloader.py:177-182 | the mapped `value[x]` choices stay as the graph grows |
| FhirResourceLoader.FhirResource.ChoicesStep | fhirtordf/loaders/fhirresourceloader.py:179-182 | one more key, mapped when it starts with `value`, extends the mapped choices |
| FhirResourceLoader.FhirResource.ExtensionGrows | fhirtordf/loaders/fhirresourceloader.py:294-362 | a member's extensions stay as the graph grows |
| FhirResourceLoader.FhirResource.ExtNodesGrow | fhirtordf/loaders/fhirresourceloader.py:345-354 | the extension nodes of a list stay as the graph grows |
| FhirResourceLoader.FhirResource.ListNodesGrow | fhirtordf/loaders/fhirresourceloader.py:247-274 | the indexed nodes of a list stay as the graph grows |
| FhirResourceLoader.FhirResource.ItemGrows | fhirtordf/loaders/fhirresourceloader.py:250-273 | one list element's content stays as the graph grows |
| FhirResourceLoader.FhirResource.BundleNodesGrow | fhirtordf/loaders/fhirresourceloader.py:250-264 | a bundle's entry nodes stay as the graph grows |
| FhirResourceLoader.FhirResource.BundleEntryGrows | fhirtordf/loaders/fhirresourceloader.py:253-264 | one bundle entry's node, `fullUrl` value, members on the bundle and resource type arc stay as the graph grows |
| FhirResourceLoader.FhirResource.EntryMembersGrow | fhirtordf/loaders/fhirresourceloader.py:258-261 | a bundle entry's members mapped onto the bundle stay as the graph grows |
| FhirResourceLoader.FhirResource.ResourceGrows | fhirtordf/loaders/fhirresourceloader.py:364-368 | a resource's mapped members stay as the graph grows |
| FhirResourceLoader.FhirResource.NodeFilled | fhirtordf/loaders/fhirresourceloader.py:283-286 | a filled value node, primitive or not, stays filled as the graph grows |
| FhirResourceLoader.FhirResource.AddVal | fhirtordf/loaders/fhirresourceloader.py:229-292 | an absent member changes nothing and gives None; a list gives None or an error, and on success one fresh node per element in order, holding the bundle entries under `Bundle.entry` and the indexed list elements elsewhere; a single value is mapped as `AddSingular` states; on success the member's mapping holds in the graph |
| FhirResourceLoader.FhirResource.AddSingular | fhirtordf/loaders/fhirresourceloader.py:275-291 | an unknown predicate is the `is_atom` error with nothing added; an atomic one is the atom's error or adds exactly its literal; any other makes the value node `AddNode` states; on success the member's mapping holds |
| FhirResourceLoader.FhirResource.AddAtom | fhirtordf/loaders/fhirresourceloader.py:277-280 | adds exactly the atomic literal, taking no blank node |
| FhirResourceLoader.FhirResource.AddPrimitive | fhirtordf/loaders/fhirresourceloader.py:283-284 | adds exactly the node's `fhir:value` literal, typed by a datatype `primitive_datatype_nostring` can give for the type and the value; when that call fails it is the TypeError of a truthy non-string value with the date switch on, and nothing is added |
| FhirResourceLoader.FhirResource.FillValueNode | fhirtordf/loaders/fhirresourceloader.py:283-286 | a primitive value node holds its literal as `AddPrimitive` states, and fails only (and with nothing added) as the TypeError of a truthy non-string value with the date switch on, so a string, a falsy value or the switch off always succeeds; any other node succeeds only with the members of its node type mapped under it |
| FhirResourceLoader.FhirResource.AddNode | fhirtordf/loaders/fhirresourceloader.py:281-291 | the value node is the next fresh blank node, unused before, returned and linked from the subject; a primitive type gives it a `fhir:value` literal whose datatype is one `primitive_datatype_nostring` can give, any other type the members of its node type; a `Reference.reference` also links the subject to its target; the value's `_key` extensions hang on the node |
| FhirResourceLoader.FhirResource.AddValList | fhirtordf/loaders/fhirresourceloader.py:247-274 | on success element i is a fresh blank node indexed i under the subject, the nodes in increasing order, each holding its element's mapping |
| FhirResourceLoader.FhirResource.AddValListItem | fhirtordf/loaders/fhirresourceloader.py:250-273 | one element: the next fresh node; on success it is indexed and linked, an object holding the members of its node type and anything else a `fhir:value` literal typed as the predicate's primitive type gives |
| FhirResourceLoader.FhirResource.ListNodesExtend | fhirtordf/loaders/fhirresourceloader.py:250-273 | one more element, indexed at the next position, linked and holding its content, extends the list's mapping |
| FhirResourceLoader.FhirResource.AddListAtom | fhirtordf/loaders/fhirresourceloader.py:270-272 | adds exactly the element's `fhir:value` literal, untyped when the predicate has no type and otherwise typed by a datatype `primitive_datatype_nostring` can give, never `xsd:string` |
| FhirResourceLoader.FhirResource.ListAtomDatatype | fhirtordf/loaders/fhirresourceloader.py:270-271 | None without a predicate type; otherwise a datatype `primitive_datatype_nostring` can give for that type with no value, which never fails and is never `xsd:string` |
| FhirResourceLoader.FhirResource.AddBundleEntries | fhirtordf/loaders/fhirresourceloader.py:247-264 | on success one fresh node per entry, in order, each indexed under the bundle, holding the entry's `fullUrl` value and naming it as its resource, typed by the entry resource's `resourceType`; every other member of each entry that the entry type knows is mapped onto the bundle's subject |
| FhirResourceLoader.FhirResource.AddBundleEntry | fhirtordf/loaders/fhirresourceloader.py:250-264 | an entry without `fullUrl` is an AttributeError; a mapped entry holds `fullUrl` and `resource`, and a fresh node indexed i under the bundle names the `fullUrl` as its resource, which, when not empty, is typed by the resource's `resourceType` in the same graph; the node holds the `fullUrl` value as `Bundle.entry.fullUrl`, and every member of the entry other than `resource` and `fullUrl` that `BundleEntryComponent` has a property for is mapped onto the bundle's subject |
| FhirResourceLoader.FhirResource.AddBundleEntryNode | fhirtordf/loaders/fhirresourceloader.py:250-257 | an entry without `fullUrl` is an AttributeError; otherwise a fresh node indexed i under the bundle holds the `fullUrl` value as `Bundle.entry.fullUrl` and names it as its resource |
| FhirResourceLoader.FhirResource.AddMembers | fhirtordf/loaders/fhirresourceloader.py:366-368 | on success every member the type defines that is present and not excluded holds its mapping under its property; the graph only grows |
| FhirResourceLoader.FhirResource.MembersGrow | fhirtordf/loaders/fhirresourceloader.py:366-368 | mapped members stay mapped as the graph grows |
| FhirResourceLoader.FhirResource.AddValueNode | fhirtordf/loaders/fhirresourceloader.py:157-185 | an undeterminable node type is its error with nothing changed; on success every property of the node type, own or inherited, has its effect: a present member is mapped (a `CodeableConcept.coding` also gets its coding type arc), an absent `value` of range Element expands the `value[x]` choices, and otherwise the member's extensions are added |
| FhirResourceLoader.FhirResource.AddValueNodeMembers | fhirtordf/loaders/fhirresourceloader.py:172-185 | on success every property of the map given has its effect |
| FhirResourceLoader.FhirResource.EffectsGrow | fhirtordf/loaders/fhirresourceloader.py:172-185 | the effects of the properties done stay as the graph grows |
| FhirResourceLoader.FhirResource.EffectsStep | fhirtordf/loaders/fhirresourceloader.py:172-185 | one more property's effect extends the set of properties done |
| FhirResourceLoader.FhirResource.EffectsToBody | fhirtordf/loaders/fhirresourceloader.py:166-185 | once every property of the node type has its effect, the value node holds the members of its type |
| FhirResourceLoader.FhirResource.AddValueNodeMember | fhirtordf/loaders/fhirresourceloader.py:173-185 | one property of the node type: on success it has its effect as `AddValueNode` states, in a graph that only grows |
| FhirResourceLoader.FhirResource.AddPresentMember | fhirtordf/loaders/fhirresourceloader.py:173-176 | a member present in the value: on success it has its effect, mapped and, for a coding, typed |
| FhirResourceLoader.FhirResource.AddValueChoices | fhirtordf/loaders/fhirresourceloader.py:177-182 | on success every `valueX` member is mapped under `Extension.valueX`, typed by what `value_predicate_to_type` gives for it |
| FhirResourceLoader.FhirResource.AddValueChoice | fhirtordf/loaders/fhirresourceloader.py:179-182 | a key not starting with `value` changes nothing; an unknown type is `value_predicate_to_type`'s error with nothing changed; on success the member is mapped under `Extension.<key>` with that type |
| FhirResourceLoader.FhirResource.AddExtensionVal | fhirtordf/loaders/fhirresourceloader.py:294-362 | no `_key` member changes nothing; extending a non-blank node is NotImplementedError and a list without predicate a TypeError, both changing nothing; comments only are dropped; a list gives one fresh indexed node per entry, each holding the entry's `extension`; any other value's `extension` is mapped under `Element.extension` |
| FhirResourceLoader.FhirResource.AddExtensionList | fhirtordf/loaders/fhirresourceloader.py:345-354 | on success extension i hangs under a fresh node indexed i, linked from the node by the predicate and holding the entry's `extension` under `Element.extension` |
| FhirResourceLoader.FhirResource.AddExtensionItem | fhirtordf/loaders/fhirresourceloader.py:349-353 | one extension: the next fresh node; on success it is indexed and linked, and holds the entry's `extension` under `Element.extension` |
| FhirResourceLoader.FhirResource.ExtNodesExtend | fhirtordf/loaders/fhirresourceloader.py:349-353 | one more extension node, indexed at the next position, linked and holding its extension, extends the list's mapping |
| FhirResourceLoader.FhirResource.AddResource | fhirtordf/loaders/fhirresourceloader.py:364-368 | a missing `resourceType` is an AttributeError and a non-string one a TypeError, both changing nothing; a string one types the subject whatever follows; on success every member the resource type defines that is present holds its mapping |
| FhirResourceLoader.FhirResource.MembersToEntry | fhirtordf/loaders/fhirresourceloader.py:258-261 | the loop over the entry type's `predicates()`, skipping `resource` and `fullUrl`, maps every such member of the entry onto the bundle |
| FhirResourceLoader.FhirResource.MembersToResource | fhirtordf/loaders/fhirresourceloader.py:364-368 | every member of the resource type mapped makes the resource's mapping |
| FhirResourceLoader.FhirResource.Generate | fhirtordf/loaders/fhirresourceloader.py:370-378 | a root with the header asked for gets the ontology header, and a version id that is not a string is then a TypeError; otherwise the subject is typed and a root also gets `fhir:nodeRole fhir:treeRoot`; on success every member of the resource holds its mapping |
| FhirResourceLoader.NewResource | fhirtordf/loaders/fhirresourceloader.py:82-118 | an empty base is an IndexError and a document without `resourceType` a ValueError, both before any triple; the subject is the given URI, or base + type + '/' + id with a supplied id for a document lacking one; the result is typed, a root one carries the tree-root arc and the header when asked, and its members are mapped; a root with the header and a non-string version id is a TypeError; the target graph only grows |
| FhirResourceLoader.ResourceSubject | fhirtordf/loaders/fhirresourceloader.py:106-111 | the subject is the URI given, or base + type + '/' + id, where a document without `id` gets the next supplied one; a non-string type or id is a TypeError |
| FhirResourceLoader.ResourceOver | fhirtordf/loaders/fhirresourceloader.py:112-117 | the mapper keeps the vocabulary, base, subject, type and switches given, uses the target or a fresh empty graph, and starts with no extra prefix |
| FhirResourceLoader.GenerateOver | fhirtordf/loaders/fhirresourceloader.py:112-118 | a mapper built and generated over a root: the root with the header and a non-string version id is a TypeError; otherwise the resource is typed, a root carries the tree-root arc and the header, and its members are mapped into the target or a fresh graph |
| FhirCollectionLoader.Attr | fhirtordf/loaders/fhircollectionloader.py:57-59 | attribute access succeeds exactly for a present member and gives its value |
| FhirCollectionLoader.PyIn | fhirtordf/loaders/fhircollectionloader.py:58 | `'resource' in entry`: a TypeError exactly for a value that is not an object, a string or a list; on an object, true exactly when the member is present |
| FhirCollectionLoader.EntryList | fhirtordf/loaders/fhircollectionloader.py:54-57 | a missing `entry` is an AttributeError; a list gives its items |
| FhirCollectionLoader.ResourcesOfWrapped | fhirtordf/loaders/fhircollectionloader.py:57-59 | entries that each wrap a resource give exactly those resources, in order |
| FhirCollectionLoader.Resources | fhirtordf/loaders/fhircollectionloader.py:57-58 | no more resources than entries are gathered |
| FhirCollectionLoader.ResourcesFrom | fhirtordf/loaders/fhircollectionloader.py:57-58 | gathering succeeds exactly when every entry's `resource` test succeeds, and each resource gathered is that of an entry holding one |
| FhirCollectionLoader.Wrapped | fhirtordf/loaders/fhircollectionloader.py:57 | one entry object per resource |
| FhirCollectionLoader.WrapHas | fhirtordf/loaders/fhircollectionloader.py:58-59 | an entry holding `resource` gives that resource |
| FhirCollectionLoader.ResourcesSkip | fhirtordf/loaders/fhircollectionloader.py:58 | an entry without `resource` adds nothing to the list |
| FhirCollectionLoader.MappedGrows | fhirtordf/loaders/fhircollectionloader.py:59-61 | a resource mapped into a graph (subject, type, tree-root arc, header and members) stays mapped as the graph grows |
| FhirCollectionLoader.FhirCollection.constructor | fhirtordf/loaders/fhircollectionloader.py:56 | a collection starts with no entries |
| FhirCollectionLoader.FhirCollection.Append | fhirtordf/loaders/fhircollectionloader.py:59 | appending adds exactly one entry at the end |
| FhirCollectionLoader.MapEntry | fhirtordf/loaders/fhircollectionloader.py:58-61 | an entry without `resource` maps nothing; otherwise its resource is mapped, into the target or a fresh graph: typed by its `resourceType` as a tree root under the subject base + type + '/' + id (a document without an id getting one), its members mapped, and its ontology header present when the header is asked for |
| FhirCollectionLoader.NewCollection | fhirtordf/loaders/fhircollectionloader.py:41-61 | an unreadable entry list is its error, and so is an entry whose `resource` test fails; otherwise one mapped resource per entry holding a resource, in order, each with the collection's settings, into the target or each into a fresh graph of its own |
| FhirCollectionLoader.CollectEntries | fhirtordf/loaders/fhircollectionloader.py:57-61 | a failing `resource` test makes the loop fail; on success the collection holds one mapped resource per entry holding `resource`, in order, into the target or each into a fresh graph of its own |
| FhirCollectionLoader.CollectInto | fhirtordf/loaders/fhircollectionloader.py:57-61 | one entry with a target: a failing `resource` test is its error; otherwise its resource, when it has one, is mapped into the target and appended, and every resource so far stays mapped there |
| FhirCollectionLoader.CollectOwn | fhirtordf/loaders/fhircollectionloader.py:57-61 | one entry without a target: a failing `resource` test is its error; otherwise its resource, when it has one, is mapped into a fresh graph of its own and appended, and every resource so far stays mapped in its own graph |
| FhirCollectionLoader.ResourcesSnoc | fhirtordf/loaders/fhircollectionloader.py:57-58 | one more entry adds its resource to the list when it has one |
| FhirCollectionLoader.AllMappedGrows | fhirtordf/loaders/fhircollectionloader.py:59-61 | resources mapped into a shared graph stay mapped as the graph grows |
| FhirJsonLoader.NextUrlFirst | fhirtordf/loaders/fhirjsonloader.py:47-49 | the url returned is that of the first `next` link, with no earlier `next` link |
| FhirJsonLoader.NextUrlNone | fhirtordf/loaders/fhirjsonloader.py:46-50 | links none of which is `next` give no continuation |
| FhirJsonLoader.Continuation | fhirtordf/loaders/fhirjsonloader.py:45-50 | no continuation without continuations, or when `link` is absent or not a list; a url found is that of the first `next` link of the document's `link` list |
| FhirJsonLoader.CheckForContinuation | fhirtordf/loaders/fhirjsonloader.py:45-50 | the first `next` link's url, none without continuations, and none when `link` is absent or not a list |
| FhirJsonLoader.NextPage | fhirtordf/loaders/fhirjsonloader.py:55-66 | the loop goes on exactly with a non-empty string url; an absent or falsy one (empty string or list or object, zero, `false`) stops it, and a truthy one that is not a string is a TypeError |
| FhirJsonLoader.Classify | fhirtordf/loaders/fhirjsonloader.py:58-69 | a document with a `resourceType` other than Bundle is one resource; one whose entry list starts with an object is a collection when that object holds `resource` (header only when the document has a `resourceType`) and unrecognised otherwise; a document with neither `resourceType` nor `entry` is unrecognised; an empty entry list without `resourceType` is an IndexError |
| FhirJsonLoader.MapPage | fhirtordf/loaders/fhirjsonloader.py:58-68 | a page `classify` rejects is its error and an unrecognised page gives false with the graph unchanged; true comes exactly for a recognised page, which is mapped into the graph, which only grows: a resource page as one tree-root resource, a collection page as one resource per entry holding `resource`, in order, each typed and with its members mapped |
| FhirJsonLoader.MapNamedPage | fhirtordf/loaders/fhirjsonloader.py:57-68 | one turn of the page loop: the page joins the chain; false means it is unrecognised; true means it is recognised and mapped, every page so far stays mapped, and the next name is its continuation's |
| FhirJsonLoader.MapListedPage | fhirtordf/loaders/fhirjsonloader.py:57-66 | one page loaded and mapped: false for an unrecognised page; true keeps every page so far mapped and adds this one |
| FhirJsonLoader.PendingNext | fhirtordf/loaders/fhirjsonloader.py:55-66 | the next name read from a recognised page's continuation is the next page of the chain |
| FhirJsonLoader.MapPages | fhirtordf/loaders/fhirjsonloader.py:55-69 | the page loop over one graph: the pages loaded are the chain from the first name; true means every one of them is mapped, false that the last is unrecognised; an empty name changes nothing |
| FhirJsonLoader.PagesMappedExtend | fhirtordf/loaders/fhirjsonloader.py:56-66 | pages mapped earlier stay mapped as the graph grows, and the new page joins them |
| FhirJsonLoader.ChainExtend | fhirtordf/loaders/fhirjsonloader.py:55-69 | the page reached from a mapped page's `next` link extends the chain of loaded pages |
| FhirJsonLoader.PageMappedGrows | fhirtordf/loaders/fhirjsonloader.py:56-66 | a mapped page stays mapped as the graph grows |
| FhirJsonLoader.FhirJsonToRdf | fhirtordf/loaders/fhirjsonloader.py:37-70 | the pages loaded are the chain from the first name through the `next` links, at most one without continuations; a graph returned, the target or a fresh one, holds every loaded page mapped as `MapPage` states; an empty name gives the graph unchanged, empty when fresh; None means the last page loaded is unrecognised; a chain shorter than the fuel ends at a page with no continuation |
| Rdf.Text | fhirtordf/rdfsupport/fhirgraphutils.py:63 | `str` of a URI is its IRI and of a literal its lexical form |
| Rdf.ObjectsOf | fhirtordf/loaders/fhirresourceloader.py:149 | `g.objects(s, p)` with a possibly missing subject: exactly the objects of matching triples |
| Rdf.Objects | fhirtordf/rdfsupport/fhirgraphutils.py:41 | exactly the objects of (s, p) |
| Rdf.Subjects | fhirtordf/fhir/fhirmetavoc.py:79 | exactly the subjects of (p, o) |
| Rdf.AllSubjects | fhirtordf/rdfsupport/rdfcompare.py:84 | exactly the terms in subject position |
| Rdf.Outgoing | fhirtordf/rdfsupport/rdfcompare.py:57 | exactly the triples of the subject |
| Rdf.Value | fhirtordf/fhir/fhirmetavoc.py:89 | `g.value`: None exactly when there is no object, otherwise one of the objects |
| Rdf.ValueUnique | fhirtordf/fhir/fhirmetavoc.py:89 | a single object is the value |
| Rdf.GraphStore.constructor | fhirtordf/loaders/fhirresourceloader.py:113 | a new graph is empty and has handed out no blank node |
| Rdf.GraphStore.Add | fhirtordf/loaders/fhirresourceloader.py:154 | adds exactly one triple |
| Rdf.GraphStore.NewBNode | fhirtordf/loaders/fhirresourceloader.py:250 | `BNode()` is a node no triple mentions, and the supply advances by one |
| Strings.RSplit | fhirtordf/fhir/fhirmetavoc.py:68 | `rsplit(c, 1)`: None exactly when `c` is absent; otherwise the text before and after the last `c` |
| Strings.RemoveAll | fhirtordf/fhir/fhirmetavoc.py:67 | `replace(p, '')` never lengthens the text and leaves a text without `p` unchanged |
| Strings.BeforeFirst | fhirtordf/loaders/fhirresourceloader.py:203 | `split('/', 1)[0]`: a prefix of the text holding no separator, followed by one when the text has it |
| Json.Get | fhirtordf/loaders/fhirresourceloader.py:246 | `obj[key]` exists exactly for a present member, smaller than the object |

## Left out

- Reading files and URLs (`load`, `os.stat`, HTTP requests) and all `print` diagnostics. `load` is a parameter mapping a name to a JSON value.
- The command-line driver (`fhirtordf.py`), `signature.py`, `prettygraph.py`, the loading of the vocabulary from file or URL (the `FHIRMetaVoc` class), `add_prefixes` and namespace binding, and `node_subject`, which the core does not call. These are I/O, serializer patches or unused code.
- Pickle serialization and operating-system file calls in the image cache. The file store is a map from location to object.
- `Literal.toPython` conversion of literal values. `FhirGraphUtils.ValueOf` marks a literal as converted and keeps the literal itself. Only the outcome of comparing a converted literal with a `str` is modelled: it can be equal exactly for a plain literal or one typed `xsd:string`, `xsd:normalizedString`, `xsd:token`, `xsd:language` or `xsd:anyURI`, whose conversion is the lexical form. The lexical form of a literal is opaque, so dates, decimals and float precision are not modelled. For the same reason `FhirGraphUtils.Truthy` and `FhirGraphUtils.TermTruthy` take a literal to be truthy when its lexical form is non-empty, while rdflib's `Literal.__bool__` is the truth of the converted value: `"0"^^xsd:integer` and `"false"^^xsd:boolean` are falsy there, which the `if system and code` test (fhirtordf/rdfsupport/fhirgraphutils.py:155) can meet.
- JSON `null`: the model's JSON values have no null, and numbers keep their text. FHIR does write `null`, in the `_x` list of a repeated primitive (`"_given": [null, {...}]`). On such an entry `add_extension_val` calls `add_val` with `None` as the object, whose `json_key not in json_obj` test raises TypeError (fhirresourceloader.py:241, called from :349-352). That error is not modelled.
- `urllib.parse.quote` and `uuid.uuid4` are parameters. Nothing is assumed of them, except that the identifiers a supply hands out are the ones the model writes.
- Iteration order of rdflib graphs is not fixed by the model. Where the source takes the first object or subject, the model takes any.
- Graphs whose superclass relation or blank-node structure is cyclic are excluded by rank preconditions. On them the source recurses without end.
- `dump_nt_sorted` and the text of the comparison report. Each report section is a value carrying the triples it would print, so only "which subjects are reported, and with what" is modelled.
- FhirMetaVoc.NoStringDatatype: every truthy value that is not a string is a TypeError of `len` when a dateTime is measured. That is Python's outcome for a number, a boolean and (taking `jsonasobj`'s object type to have no length) an object; a list, which `add_val` never passes here because lists take its list branch, would be measured by its number of elements instead.
- Python's `NotImplemented` and calls on a value of the wrong kind (iterating a JSON object, loading a truthy non-string `next` url) are modelled as TypeError. An empty JSON object counts as falsy, as an empty `dict` does; the truthiness of `jsonasobj`'s object type is not part of this model.
- Python's regular-expression engine. `$` in the reference pattern accepts one trailing newline, and the matcher models that.
- FhirJsonLoader.FhirJsonToRdf: the page loop is bounded by a fuel argument. A chain of continuations longer than the fuel is cut off, and its last page's continuation is not stated.
- FhirResourceLoader.NewResource: the assertion that the supplied document is non-empty (fhirresourceloader.py:102) is not modelled, since a document with a `resourceType` is never empty. The id the source writes into the caller's document is returned in a new root value, and the caller's value is not updated in place.
- FhirResourceLoader.FhirResource.AddBundleEntries: each entry's node, its `fullUrl` value and link, the entry's other members on the bundle and the resource's type arc are stated, but not the resource's own members, which the nested mapper adds. As in the source, the fields of a bundle entry other than `resource` attach to the bundle's subject and not to the entry node.
- FhirResourceLoader.FhirResource.AddBundleEntry: states the entry resource's type arc, not its members, for the same reason.
- FhirResourceLoader.FhirResource.AddMembers: a failure is not characterised. When a member cannot be mapped, the model states only that the graph grew, not which member failed or with what error. The same holds for `AddValueNode`, `AddValueNodeMember`, `AddValueChoices`, `AddVal` on lists, `AddExtensionVal`'s list and object forms, and for `AddResource`, `Generate` and `NewResource` once the subject is typed.
- FhirResourceLoader.NewResource: the resource returned is not stated to use the closed list of resource type names for its references. The constructor sets it, and nothing changes it afterwards.
- DottedNamespace.NamespaceAttr: every attribute name yields a URI. In the source, names other than `index` go to `str` first, so a real `str` or `Namespace` attribute (`count`, `format`, `split`, `term`) is that method, not a URI (dottednamespace.py:12-16). No call in the core uses such a name.
- DottedNamespace.RefAttr: every attribute name yields a dotted URI. In the source only names that `URIRef` lacks reach `__getattr__` (dottednamespace.py:35), so `index`, `count` or `n3` on a dotted URI are methods. No call in the core uses such a name.
- FhirResourceLoader.FhirResource.AddValueChoices: a JSON object is a sequence of members, so a repeated `valueX` key is mapped once per occurrence, where Python's dictionary keeps it once, with its last value.
- FhirResourceLoader.FhirResource.AddValueNodeMember: the membership test `k in val` is false on a string value. In Python it is a substring test, so a string value node with a matching substring would have the member read, and fail.
- FhirResourceLoader.FhirResource.AddExtensionVal: the TypeError that a `null` entry of an `_x` list raises in the source is not a case of the model, as the `null` line above says.
- Namespaces.NamespaceTable.NamespaceFor: the argument is modelled as a `str`, which is what the callers pass (namespaces and prefixes). For an argument of the declared `URIRef` type the key test never succeeds, since rdflib compares and hashes a `URIRef` by its type as well as its text, so such a call always binds a new anonymous namespace; the model does not distinguish that type.

## Findings

| source | as written | input that shows it | evidently intended | confidence | as-written member | corrected member |
|---|---|---|---|---|---|---|
| fhirtordf/rdfsupport/namespaces.py:68 | tests `uri` against the table's keys (prefixes), then searches the values | `namespace_for("owl")`: "owl" is a key, so nothing is added, no value equals "owl", and indexing the empty result raises IndexError | test membership among the values, so a namespace is always found | not executed | Namespaces.PrefixNameIsNotFound | Namespaces.NamespaceTable.NamespaceForCorrected |
| fhirtordf/fhir/picklejar.py:100 | removes `join(cache_directory, loc)`, although `loc` already includes the directory | relative directory "cache": the first `add("x")` stores "cache/u1", and the second removes "cache/cache/u1", which raises FileNotFoundError | remove the stored location itself | not executed | PickleJar.ReAddWithRelativeDirectory | PickleJar.ReAddWithRelativeDirectoryCorrected |
| fhirtordf/rdfsupport/rdfcompare.py:141 | `primary_subjects(g)` takes its URI subjects from `g1` whatever `g` is | `g1` empty and `g2` holding a URI subject: the report is empty | take the subjects of `g`, so subjects of one graph only are reported | not executed | RdfCompare.Compare | RdfCompare.CompareCorrected |
