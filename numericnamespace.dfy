/**
 * Namespaces for numeric codes such as `sct:74400008`: the attribute `C74400008` drops its first
 * character, and an integer index is written in decimal.
 */
module NumericNamespace {
  import opened Strings
  import opened Rdf

  /** `NumericNamespace.__getattr__`: the base followed by the name without its first character. */
  function NumericAttr(ns: string, item: string): (r: Term)
    ensures r.Uri? && StartsWith(r.iri, ns)
    ensures |item| > 0 ==> |r.iri| == |ns| + |item| - 1 && r.iri[|ns|..] == item[1..]
    ensures |item| == 0 ==> r.iri == ns
  {
    Uri(ns + (if |item| > 0 then item[1..] else ""))
  }

  /** A key of `ns[...]`: an integer, or a string used as it is. */
  datatype Key = IntKey(i: int) | StrKey(s: string)

  /** `NumericNamespace.__getitem__`. */
  function NumericItem(ns: string, key: Key): (r: Term)
    ensures r.Uri? && StartsWith(r.iri, ns)
    ensures key.StrKey? ==> r.iri[|ns|..] == key.s
  {
    match key
    case IntKey(i) => Uri(ns + IntToString(i))
    case StrKey(s) => Uri(ns + s)
  }

  /** An integer index names the same URI as the attribute spelled with its digits. */
  lemma ItemIsAttr(ns: string, i: int)
    ensures NumericItem(ns, IntKey(i)) == NumericAttr(ns, "C" + IntToString(i))
  {
    assert ("C" + IntToString(i))[1..] == IntToString(i);
  }

  /** Codes name the same URI exactly when they are the same code. */
  lemma AttrInjective(ns: string, a: string, b: string)
    ensures NumericAttr(ns, "C" + a) == NumericAttr(ns, "C" + b) <==> a == b
  {
    assert ("C" + a)[1..] == a;
    assert ("C" + b)[1..] == b;
    if NumericAttr(ns, "C" + a) == NumericAttr(ns, "C" + b) {
      assert (ns + a)[|ns|..] == a;
      assert (ns + b)[|ns|..] == b;
    }
  }

  /** Integer indexes name the same URI exactly when they are the same integer. */
  lemma ItemInjective(ns: string, i: int, j: int)
    ensures NumericItem(ns, IntKey(i)) == NumericItem(ns, IntKey(j)) <==> i == j
  {
    ItemIsAttr(ns, i);
    ItemIsAttr(ns, j);
    AttrInjective(ns, IntToString(i), IntToString(j));
    if IntToString(i) == IntToString(j) {
      IntToStringInjective(i, j);
    }
  }
}
