/** The rdflib format names the tool knows about, and the file suffix that goes with each. */
module RdflibFormats {
  import opened Wrappers

  /** `SUFFIX_FORMAT_MAP` */
  const SUFFIX_FORMAT_MAP: map<string, string> :=
    map["xml" := "rdf", "turtle" := "ttl", "rdfa" := "html", "nquads" := "nq",
        "pretty-xml" := "xml", "nt11" := "nt", "ntriples" := "nt"]

  /** `suffix_for`: the suffix of a listed format; any other format name is its own suffix. */
  function SuffixFor(fmt: string): (r: string)
    ensures fmt in SUFFIX_FORMAT_MAP ==> r == SUFFIX_FORMAT_MAP[fmt]
    ensures fmt !in SUFFIX_FORMAT_MAP ==> r == fmt
  {
    if fmt in SUFFIX_FORMAT_MAP then SUFFIX_FORMAT_MAP[fmt] else fmt
  }

  lemma SuffixExamples()
    ensures SuffixFor("xml") == "rdf" && SuffixFor("turtle") == "ttl" && SuffixFor("rdfa") == "html"
    ensures SuffixFor("nquads") == "nq" && SuffixFor("pretty-xml") == "xml"
    ensures SuffixFor("nt11") == "nt" && SuffixFor("ntriples") == "nt"
    ensures SuffixFor("json-ld") == "json-ld"
  {
    assert "json-ld" !in SUFFIX_FORMAT_MAP;
  }

  /** What a plugin is registered as. */
  datatype PluginKind = Serializer | Parser | OtherKind(name: string)

  // ---- Python's ordering of strings: by code point, a proper prefix first ----

  predicate StrLe(a: string, b: string)
    decreases |a|
  {
    a == [] || (b != [] && (a[0] < b[0] || (a[0] == b[0] && StrLe(a[1..], b[1..]))))
  }

  lemma {:induction false} StrLeTotal(a: string, b: string)
    ensures StrLe(a, b) || StrLe(b, a)
    decreases |a|
  {
    if a != [] && b != [] && a[0] == b[0] {
      StrLeTotal(a[1..], b[1..]);
    }
  }

  lemma {:induction false} StrLeTransitive(a: string, b: string, c: string)
    requires StrLe(a, b) && StrLe(b, c)
    ensures StrLe(a, c)
    decreases |a|
  {
    if a != [] && a[0] == b[0] && b[0] == c[0] {
      StrLeTransitive(a[1..], b[1..], c[1..]);
    }
  }

  predicate Sorted(s: seq<string>) {
    forall i :: 0 < i < |s| ==> StrLe(s[i - 1], s[i])
  }

  /** `x` put into its place in a sorted list. */
  function Insert(x: string, s: seq<string>): (r: seq<string>)
    requires Sorted(s)
    ensures Sorted(r)
    ensures multiset(r) == multiset(s) + multiset{x}
    ensures r != [] && (r[0] == x || (s != [] && r[0] == s[0]))
  {
    if s == [] then [x]
    else if StrLe(x, s[0]) then [x] + s
    else
      StrLeTotal(x, s[0]);
      var rest := Insert(x, s[1..]);
      assert s == [s[0]] + s[1..];
      [s[0]] + rest
  }

  /** Python's `sorted` on strings. */
  function Sort(s: seq<string>): (r: seq<string>)
    ensures Sorted(r)
    ensures multiset(r) == multiset(s)
  {
    if s == [] then []
    else
      assert s == s[..|s| - 1] + [s[|s| - 1]];
      Insert(s[|s| - 1], Sort(s[..|s| - 1]))
  }

  /** The names that pass the filter of `known_formats`, in registry order. */
  function Selected(plugins: seq<(string, PluginKind)>, use: PluginKind, includeMimeTypes: bool): (r: seq<string>)
    ensures forall n :: n in r <==>
      exists i :: 0 <= i < |plugins| && plugins[i].0 == n && plugins[i].1 == use && (includeMimeTypes || '/' !in n)
  {
    if plugins == [] then []
    else
      var rest := Selected(plugins[1..], use, includeMimeTypes);
      assert forall i :: 0 < i < |plugins| ==> plugins[1..][i - 1] == plugins[i];
      var (name, kind) := plugins[0];
      if kind == use && (includeMimeTypes || '/' !in name) then [name] + rest else rest
  }

  /**
   * `known_formats`: the names registered for `use`, without MIME-type names (those holding a '/')
   * unless `includeMimeTypes`, in sorted order.
   */
  function KnownFormats(plugins: seq<(string, PluginKind)>, use: PluginKind, includeMimeTypes: bool): (r: seq<string>)
    ensures Sorted(r)
    ensures multiset(r) == multiset(Selected(plugins, use, includeMimeTypes))
    ensures forall n :: n in r ==> includeMimeTypes || '/' !in n
  {
    var sel := Selected(plugins, use, includeMimeTypes);
    var r := Sort(sel);
    assert forall n :: n in r ==> n in multiset(r) && n in multiset(sel) && n in sel;
    r
  }

  /** A sorted list never has a later element below an earlier one. */
  lemma {:induction false} SortedPairwise(s: seq<string>, i: nat, j: nat)
    requires Sorted(s) && i <= j < |s|
    ensures StrLe(s[i], s[j])
    decreases j - i
  {
    if i == j {
      StrLeReflexive(s[i]);
    } else {
      SortedPairwise(s, i, j - 1);
      StrLeTransitive(s[i], s[j - 1], s[j]);
    }
  }

  lemma {:induction false} StrLeReflexive(a: string)
    ensures StrLe(a, a)
    decreases |a|
  {
    if a != [] {
      StrLeReflexive(a[1..]);
    }
  }
}
