/**
 * The prefix table and its reverse lookup. The table maps prefix names, and the anonymous
 * namespace objects the lookup creates, to namespace URIs, in insertion order.
 */
module Namespaces {
  import opened Wrappers
  import opened Strings
  import opened Errors
  import opened Rdf

  const LOINC_NS: string := "http://loinc.org/owl#"
  const SNOMEDCT_NS: string := "http://snomed.info/id/"
  const RXNORM_NS: string := "http://www.nlm.nih.gov/research/umls/rxnorm"
  const V3_NS: string := "http://hl7.org/fhir/v3/"
  const V2_NS: string := "http://hl7.org/fhir/v2/"
  const SCT_NS: string := "http://snomed.info/id/"

  /** The class attribute `AnonNS._nsnum`; nothing ever writes it. */
  const CLASS_NSNUM: nat := 0

  /**
   * An anonymous namespace. The constructor reads the class counter and writes the incremented
   * value into an attribute of the new object, so the class counter stays at its initial value.
   */
  class AnonNS {
    var nsnum: nat
    var ns: string

    constructor ()
      ensures nsnum == CLASS_NSNUM + 1
      ensures ns == "ns" + NatToString(nsnum)
    {
      nsnum := CLASS_NSNUM + 1;
      ns := "ns" + NatToString(CLASS_NSNUM + 1);
    }
  }

  /** Every anonymous namespace is labelled `ns1`. */
  lemma AnonLabel(a: AnonNS)
    requires a.ns == "ns" + NatToString(a.nsnum) && a.nsnum == CLASS_NSNUM + 1
    ensures a.ns == "ns1"
  {
    assert NatToString(1) == "1";
  }

  /** A key of the table: a prefix name, or an anonymous namespace object (equal only to itself). */
  datatype Key = Prefix(name: string) | Anon(obj: AnonNS)

  type Entry = (Key, string)

  /** The table as the module defines it. */
  function InitialEntries(): seq<Entry> {
    [(Prefix("fhir"), FHIR_NS), (Prefix("owl"), OWL_NS), (Prefix("rdfs"), RDFS_NS),
     (Prefix("rdf"), RDF_NS), (Prefix("xsd"), XSD_NS), (Prefix("w5"), W5_NS),
     (Prefix("v2"), V2_NS), (Prefix("v3"), V3_NS), (Prefix("sct"), SCT_NS)]
  }

  predicate HasKey(entries: seq<Entry>, k: Key) {
    exists i :: 0 <= i < |entries| && entries[i].0 == k
  }

  predicate HasValue(entries: seq<Entry>, uri: string) {
    exists i :: 0 <= i < |entries| && entries[i].1 == uri
  }

  /** A dictionary binds each key once. */
  predicate DistinctKeys(entries: seq<Entry>) {
    forall i, j :: 0 <= i < j < |entries| ==> entries[i].0 != entries[j].0
  }

  /** The first key, in insertion order, whose value is `uri`. */
  function FirstKeyFor(entries: seq<Entry>, uri: string): (r: Option<Key>)
    ensures r.None? <==> !HasValue(entries, uri)
    ensures r.Some? ==>
      exists i :: 0 <= i < |entries| && entries[i] == (r.value, uri) && forall j :: 0 <= j < i ==> entries[j].1 != uri
  {
    if entries == [] then None
    else if entries[0].1 == uri then
      assert entries[0] == (entries[0].0, uri);
      Some(entries[0].0)
    else
      var r := FirstKeyFor(entries[1..], uri);
      assert forall i :: 0 <= i < |entries| - 1 ==> entries[1..][i] == entries[i + 1];
      r
  }

  /** Entries after the first binding of `uri` do not change the answer. */
  lemma {:induction false} FirstKeyForStable(entries: seq<Entry>, more: seq<Entry>, uri: string)
    requires HasValue(entries, uri)
    ensures FirstKeyFor(entries + more, uri) == FirstKeyFor(entries, uri)
  {
    if entries[0].1 != uri {
      var i :| 0 <= i < |entries| && entries[i].1 == uri;
      assert entries[1..][i - 1].1 == uri;
      FirstKeyForStable(entries[1..], more, uri);
      assert (entries + more)[1..] == entries[1..] + more;
    }
  }

  /** The first binding of `uri` decides the answer. */
  lemma {:induction false} FirstKeyAt(entries: seq<Entry>, i: nat, uri: string)
    requires i < |entries| && entries[i].1 == uri
    requires forall j :: 0 <= j < i ==> entries[j].1 != uri
    ensures FirstKeyFor(entries, uri) == Some(entries[i].0)
  {
    if i > 0 {
      FirstKeyAt(entries[1..], i - 1, uri);
    }
  }

  /** No two prefixes of the initial table share a namespace. */
  lemma InitialValuesDistinct()
    ensures forall i, j :: 0 <= i < j < |InitialEntries()| ==> InitialEntries()[i].1 != InitialEntries()[j].1
  {
    assert W5_NS[20] == 'w' && V2_NS[20] == 'v' && V3_NS[20] == 'v';
    assert V2_NS[21] == '2' && V3_NS[21] == '3';
  }

  /** Each namespace of the initial table is found under its own prefix, whatever is added later. */
  lemma InitialPrefixFound(k: nat, more: seq<Entry>)
    requires k < |InitialEntries()|
    ensures FirstKeyFor(InitialEntries() + more, InitialEntries()[k].1) == Some(InitialEntries()[k].0)
  {
    var e := InitialEntries();
    InitialValuesDistinct();
    FirstKeyAt(e, k, e[k].1);
    FirstKeyForStable(e, more, e[k].1);
  }

  /**
   * A prefix name that is not also a namespace URI passes the key test, so nothing is added, and
   * the final search finds no value equal to it: `namespace_for("owl")` fails with an IndexError.
   */
  lemma PrefixNameIsNotFound()
    ensures HasKey(InitialEntries(), Prefix("owl"))
    ensures FirstKeyFor(InitialEntries(), "owl") == None
  {
    var e := InitialEntries();
    assert e[1].0 == Prefix("owl");
    assert forall i :: 0 <= i < |e| ==> |e[i].1| > 3;
  }

  /** The module-level `namespaces` dictionary. */
  class NamespaceTable {
    var entries: seq<Entry>

    ghost predicate Valid()
      reads this
    {
      DistinctKeys(entries)
    }

    constructor ()
      ensures entries == InitialEntries()
      ensures Valid()
    {
      entries := InitialEntries();
    }

    /**
     * `namespace_for(uri)` as written: a new anonymous namespace is bound to `uri` unless `uri` is
     * already a KEY of the table; then the first key whose value is `uri` is returned, and an
     * IndexError is raised when there is none.
     */
    method NamespaceFor(uri: string) returns (r: Result<Key, PyError>)
      requires Valid()
      modifies this
      ensures Valid()
      ensures HasKey(old(entries), Prefix(uri)) ==> entries == old(entries)
      ensures !HasKey(old(entries), Prefix(uri)) ==>
        |entries| == |old(entries)| + 1 && entries[..|old(entries)|] == old(entries)
        && entries[|old(entries)|].1 == uri && entries[|old(entries)|].0.Anon?
        && fresh(entries[|old(entries)|].0.obj)
      ensures r.Ok? <==> FirstKeyFor(entries, uri).Some?
      ensures r.Ok? ==> r.value == FirstKeyFor(entries, uri).value
      ensures r.Err? ==> r.error == IndexError
    {
      if !HasKey(entries, Prefix(uri)) {
        var a := new AnonNS();
        entries := entries + [(Anon(a), uri)];
      }
      var k := FirstKeyFor(entries, uri);
      if k.Some? {
        r := Ok(k.value);
      } else {
        r := Err(IndexError);
      }
    }

    /** The lookup that tests the VALUES of the table: it never fails and adds `uri` at most once. */
    method NamespaceForCorrected(uri: string) returns (k: Key)
      requires Valid()
      modifies this
      ensures Valid()
      ensures HasValue(old(entries), uri) ==> entries == old(entries)
      ensures !HasValue(old(entries), uri) ==>
        |entries| == |old(entries)| + 1 && entries[..|old(entries)|] == old(entries)
        && entries[|old(entries)|].1 == uri && entries[|old(entries)|].0.Anon?
        && fresh(entries[|old(entries)|].0.obj)
      ensures HasValue(entries, uri)
      ensures FirstKeyFor(entries, uri) == Some(k)
    {
      if !HasValue(entries, uri) {
        var a := new AnonNS();
        entries := entries + [(Anon(a), uri)];
        assert entries[|entries| - 1].1 == uri;
      }
      k := FirstKeyFor(entries, uri).value;
    }
  }
}
