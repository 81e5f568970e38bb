/**
 * The code-system table `codesystem_maps` of the resource loader: a coding's system URI selects
 * a generator, which mints the type URI of the coded concept and records the namespace prefix the
 * output should bind for it.
 */
module CodeSystems {
  import opened Wrappers
  import opened Strings
  import opened Rdf
  import opened Namespaces

  /** Prefix name to namespace URI, as collected in `_addl_namespaces`. */
  type NsMap = map<string, string>

  /** `nsmap.setdefault(k, v)`: binds `k` to `v` unless `k` is already bound. */
  function SetDefault(m: NsMap, k: string, v: string): (r: NsMap)
    ensures r.Keys == m.Keys + {k}
    ensures forall j :: j in m ==> r[j] == m[j]
    ensures k !in m ==> r[k] == v
  {
    if k in m then m else m[k := v]
  }

  const HL7_FHIR_BASE: string := "http://hl7.org/fhir/"
  const HL7_V3_BASE: string := "http://hl7.org/fhir/v3/"
  const HL7_V2_BASE: string := "http://hl7.org/fhir/v2/"

  datatype Generator = LoincUri | SnomedUri | Hl7V3Uri | Hl7V2Uri | Hl7FhirUri

  /** The prefix name a generator binds for `system`. */
  function PrefixFor(gen: Generator, system: string): (r: string)
    ensures gen == Hl7V3Uri ==> StartsWith(r, "v3-")
    ensures gen == Hl7V2Uri ==> StartsWith(r, "v2-")
    ensures gen == Hl7FhirUri ==> forall i :: 0 <= i < |r| ==> r[i] != '/'
  {
    match gen
    case LoincUri => "loinc"
    case SnomedUri => "sct"
    case Hl7V3Uri => "v3-" + RemoveAll(system, HL7_V3_BASE)
    case Hl7V2Uri => "v2-" + RemoveAll(system, HL7_V2_BASE)
    case Hl7FhirUri => ReplaceChar(RemoveAll(system, HL7_FHIR_BASE), '/', '_')
  }

  /** The namespace a generator binds under that prefix. */
  function NamespaceFor(gen: Generator, system: string): string {
    match gen
    case LoincUri => LOINC_NS
    case SnomedUri => SNOMEDCT_NS
    case _ => system
  }

  /**
   * `loinc_uri`, `snomed_uri`, `hl7_v3_uri`, `hl7_v2_uri` and `hl7_fhir_uri`: the type URI for
   * `code` (SNOMED only for an all-digit code) and the prefix map after the `setdefault`.
   */
  function Generate(gen: Generator, system: string, code: string, nsmap: NsMap): (r: (Option<Term>, NsMap))
    ensures r.1.Keys == nsmap.Keys + {PrefixFor(gen, system)}
    ensures forall j :: j in nsmap ==> r.1[j] == nsmap[j]
    ensures gen == SnomedUri ==> (r.0.Some? <==> IsDigits(code))
    ensures gen != SnomedUri ==> r.0.Some?
    ensures r.0.Some? ==> r.0.value.Uri? && EndsWith(r.0.value.iri, code)
    ensures r.0.Some? && PrefixFor(gen, system) !in nsmap ==>
      r.0.value.iri == r.1[PrefixFor(gen, system)] + (if gen == LoincUri || gen == SnomedUri then "" else "/") + code
  {
    var m := SetDefault(nsmap, PrefixFor(gen, system), NamespaceFor(gen, system));
    match gen
    case LoincUri => (Some(Uri(LOINC_NS + code)), m)
    case SnomedUri => (if IsDigits(code) then Some(Uri(SNOMEDCT_NS + code)) else None, m)
    case _ => (Some(Uri(system + "/" + code)), m)
  }

  /**
   * A key of `codesystem_maps`: an exact system string, or a compiled pattern applied with
   * `re.match`, which only has to match at the start. In the literal part of a pattern a '.'
   * stands for any character but a newline. A trailing run of slashes (`/` then `*`) may be empty, so such a pattern
   * needs only its literal part; a trailing `[a-z-]+` needs one more such character.
   */
  datatype Key =
    | Exact(text: string)
    | SlashesAfter(lit: string)
    | LowerRunAfter(lit: string)

  predicate LiteralAtStart(s: string, lit: string) {
    |lit| <= |s| && forall i :: 0 <= i < |lit| ==> if lit[i] == '.' then s[i] != '\n' else s[i] == lit[i]
  }

  predicate LowerOrDash(c: char) { 'a' <= c <= 'z' || c == '-' }

  predicate KeyMatches(k: Key, system: string)
    ensures KeyMatches(k, system) && k.Exact? ==> system == k.text
    ensures KeyMatches(k, system) && k.SlashesAfter? ==> |k.lit| <= |system|
    ensures KeyMatches(k, system) && k.LowerRunAfter? ==> |k.lit| < |system| && LowerOrDash(system[|k.lit|])
  {
    match k
    case Exact(t) => system == t
    case SlashesAfter(lit) => LiteralAtStart(system, lit)
    case LowerRunAfter(lit) => LiteralAtStart(system, lit) && |lit| < |system| && LowerOrDash(system[|lit|])
  }

  /** `codesystem_maps`, in insertion order. */
  const CODESYSTEM_MAPS: seq<(Key, Generator)> :=
    [(Exact("http://loinc.org"), LoincUri),
     (Exact("http://snomed.info/sct"), SnomedUri),
     (SlashesAfter("http://hl7.org/fhir/v3"), Hl7V3Uri),
     (SlashesAfter("http://hl7.org/fhir/v2"), Hl7V2Uri),
     (LowerRunAfter("http://hl7.org/fhir/"), Hl7FhirUri)]

  /** The first entry, in table order, whose key matches `system`. */
  function FirstMatch(table: seq<(Key, Generator)>, system: string): (r: Option<nat>)
    ensures r.Some? ==>
      (r.value < |table| && KeyMatches(table[r.value].0, system)
       && forall i :: 0 <= i < r.value ==> !KeyMatches(table[i].0, system))
    ensures r.None? ==> forall i :: 0 <= i < |table| ==> !KeyMatches(table[i].0, system)
  {
    if |table| == 0 then None
    else if KeyMatches(table[0].0, system) then Some(0)
    else match FirstMatch(table[1..], system)
      case None => None
      case Some(i) => Some(i + 1)
  }

  /**
   * The table lookup of `add_type_arc` (the system and code both present, the code already
   * quoted): the first matching entry's generator decides; no match gives no type and leaves
   * the prefix map as it was. The map only ever grows and never rebinds a prefix.
   */
  function TypeArc(system: string, code: string, nsmap: NsMap): (r: (Option<Term>, NsMap))
    ensures FirstMatch(CODESYSTEM_MAPS, system).None? ==> r == (None, nsmap)
    ensures nsmap.Keys <= r.1.Keys && |r.1.Keys - nsmap.Keys| <= 1
    ensures forall j :: j in nsmap ==> r.1[j] == nsmap[j]
    ensures r.0.Some? ==> r.0.value.Uri? && EndsWith(r.0.value.iri, code)
  {
    match FirstMatch(CODESYSTEM_MAPS, system)
    case None => (None, nsmap)
    case Some(i) =>
      var r := Generate(CODESYSTEM_MAPS[i].1, system, code, nsmap);
      assert r.1.Keys - nsmap.Keys <= {PrefixFor(CODESYSTEM_MAPS[i].1, system)};
      r
  }
  /** The type minted does not depend on the prefixes bound so far. */
  lemma TypeArcAnyMap(system: string, code: string, nsmap: NsMap)
    ensures TypeArc(system, code, nsmap).0 == TypeArc(system, code, map[]).0
  {
    match FirstMatch(CODESYSTEM_MAPS, system)
    case None =>
    case Some(i) =>
      var gen := CODESYSTEM_MAPS[i].1;
      assert Generate(gen, system, code, nsmap).0 == Generate(gen, system, code, map[]).0;
  }


  /** A LOINC coding types its subject `loinc:code`. */
  lemma TypeArcLoinc(code: string, nsmap: NsMap)
    ensures TypeArc("http://loinc.org", code, nsmap).0 == Some(Uri(LOINC_NS + code))
    ensures "loinc" in TypeArc("http://loinc.org", code, nsmap).1
  {
    assert KeyMatches(CODESYSTEM_MAPS[0].0, "http://loinc.org");
  }

  /** A SNOMED CT coding gives a type exactly when the code is all digits. */
  lemma TypeArcSnomed(code: string, nsmap: NsMap)
    ensures IsDigits(code) ==> TypeArc("http://snomed.info/sct", code, nsmap).0 == Some(Uri(SNOMEDCT_NS + code))
    ensures !IsDigits(code) ==> TypeArc("http://snomed.info/sct", code, nsmap).0 == None
  {
    var s := "http://snomed.info/sct";
    assert !KeyMatches(CODESYSTEM_MAPS[0].0, s) by { assert s[7] != "http://loinc.org"[7]; }
    assert KeyMatches(CODESYSTEM_MAPS[1].0, s);
    assert FirstMatch(CODESYSTEM_MAPS, s) == Some(1);
    assert TypeArc(s, code, nsmap) == Generate(SnomedUri, s, code, nsmap);
  }

  /** A system with 'h' where the exact keys have 'l' and 's' matches neither exact key. */
  lemma NotExact(system: string)
    requires |system| > 7 && system[7] == 'h'
    ensures !KeyMatches(CODESYSTEM_MAPS[0].0, system) && !KeyMatches(CODESYSTEM_MAPS[1].0, system)
  {
    assert "http://loinc.org"[7] == 'l';
    assert "http://snomed.info/sct"[7] == 's';
  }

  /** The HL7 prefix patterns all mint system + '/' + code. */
  lemma TypeArcHl7(system: string, code: string, nsmap: NsMap)
    requires exists i :: 2 <= i < |CODESYSTEM_MAPS| && KeyMatches(CODESYSTEM_MAPS[i].0, system)
    ensures TypeArc(system, code, nsmap).0 == Some(Uri(system + "/" + code))
  {
    assert |system| >= 20 && system[7] == 'h';
    NotExact(system);
  }

  lemma V3Matches(name: string)
    ensures KeyMatches(CODESYSTEM_MAPS[2].0, HL7_V3_BASE + name)
  {
    assert (HL7_V3_BASE + name)[..22] == "http://hl7.org/fhir/v3";
  }

  /** A `v3` system named under the HL7 v3 base binds the prefix `v3-` + its name to itself. */
  lemma TypeArcV3Prefix(name: string, code: string, nsmap: NsMap)
    requires !Contains(name, HL7_V3_BASE)
    requires "v3-" + name !in nsmap
    ensures var system := HL7_V3_BASE + name;
      && TypeArc(system, code, nsmap).0 == Some(Uri(system + "/" + code))
      && TypeArc(system, code, nsmap).1 == nsmap["v3-" + name := system]
  {
    var system := HL7_V3_BASE + name;
    RemoveAllOfPrefix(HL7_V3_BASE, name);
    assert PrefixFor(Hl7V3Uri, system) == "v3-" + name;
    V3FirstMatch(name);
    assert TypeArc(system, code, nsmap) == Generate(Hl7V3Uri, system, code, nsmap);
  }

  /** A system under the HL7 v3 base is decided by the table's third entry. */
  lemma V3FirstMatch(name: string)
    ensures FirstMatch(CODESYSTEM_MAPS, HL7_V3_BASE + name) == Some(2)
  {
    var system := HL7_V3_BASE + name;
    assert system[7] == HL7_V3_BASE[7] == 'h';
    NotExact(system);
    V3Matches(name);
  }
}
