/**
 * The FHIR reference pattern (section 2.3.0.1 of the FHIR references page), written as a matcher
 * instead of a regular expression: `[base]Type/id[/_history/version]`, anchored at the start and
 * ended by `$`. The result carries the pattern's groups 1 (base), 4 (type), 5 (id) and 7 (version).
 *
 * The matcher is written over any set of type names that hold no slash and differ from
 * `_history`; `Match` is that matcher over the closed list of resource types.
 */
module FhirResourceRe {
  import opened Wrappers
  import opened Strings
  import opened FhirResourceTypes

  /** What the loader writes instead of a long narrative `div`. */
  const REPLACED_NARRATIVE_TEXT: string := "<div xmlns=\"http://www.w3.org/1999/xhtml\">(removed)</div>"

  predicate IsLetter(c: char) { 'A' <= c <= 'Z' || 'a' <= c <= 'z' }

  /** `[A-Za-z0-9.-]` */
  predicate IdChar(c: char) { IsLetter(c) || IsDigit(c) || c == '.' || c == '-' }

  /** `[A-Za-z0-9.-]{1,64}`, the shape of ids and version ids. */
  predicate ValidId(s: string) {
    1 <= |s| <= 64 && forall i :: 0 <= i < |s| ==> IdChar(s[i])
  }

  /** `[A-Za-z0-9\.:%$]` */
  predicate BaseChar(c: char) { IsLetter(c) || IsDigit(c) || c == '.' || c == ':' || c == '%' || c == '$' }

  // The segments `([A-Za-z0-9\.:%$]*/)*`: empty, or base characters and slashes ending in a slash.
  predicate ValidSegments(t: string) {
    (t == [] || t[|t| - 1] == '/') && forall i :: 0 <= i < |t| ==> BaseChar(t[i]) || t[i] == '/'
  }

  // Group 1 of the pattern: `http://` or `https://`, then the segments.
  predicate ValidBase(b: string) {
    || (StartsWith(b, "http://") && ValidSegments(b[7..]))
    || (StartsWith(b, "https://") && ValidSegments(b[8..]))
  }

  /** The groups of a successful match; an absent optional group is None. */
  datatype ReMatch = ReMatch(base: Option<string>, rtype: string, id: string, version: Option<string>)

  predicate ValidGroupsIn(types: set<string>, m: ReMatch) {
    && (m.base.Some? ==> ValidBase(m.base.value))
    && m.rtype in types
    && ValidId(m.id)
    && (m.version.Some? ==> ValidId(m.version.value))
  }

  /** Groups the pattern can produce. */
  predicate ValidGroups(m: ReMatch) {
    ValidGroupsIn(RESOURCE_TYPES, m)
  }

  /** The text of groups 1 to 5: `[base]Type/id`. */
  function Head(m: ReMatch): string {
    (if m.base.Some? then m.base.value else "") + m.rtype + "/" + m.id
  }

  /** The text a match with these groups spans. */
  function Render(m: ReMatch): string {
    if m.version.Some? then Head(m) + "/" + HISTORY + "/" + m.version.value else Head(m)
  }

  /**
   * `FHIR_RESOURCE_RE.match(s)`: the groups of the match, or None. Every match found has
   * well-formed groups and spans the input, up to a final newline.
   */
  function Match(s: string): (r: Option<ReMatch>)
    ensures r.Some? ==> ValidGroups(r.value) && (s == Render(r.value) || s == Render(r.value) + "\n")
  {
    MatchIn(RESOURCE_TYPES, s)
  }

  // `$` matches at the very end and also just before a final newline; no group can take in a
  // newline, so at most one of the two places can end a match.
  function MatchIn(types: set<string>, s: string): (r: Option<ReMatch>)
    ensures r.Some? ==> ValidGroupsIn(types, r.value) && (s == Render(r.value) || s == Render(r.value) + "\n")
  {
    if |s| > 0 && s[|s| - 1] == '\n' then
      assert s == s[..|s| - 1] + "\n";
      MatchWhole(types, s[..|s| - 1])
    else MatchWhole(types, s)
  }

  /** A match that spans all of `s`: it renders back to `s`. */
  function MatchWhole(types: set<string>, s: string): (r: Option<ReMatch>)
    ensures r.Some? ==> ValidGroupsIn(types, r.value) && Render(r.value) == s
  {
    var versioned := MatchVersioned(types, s);
    if versioned.Some? then versioned else MatchHead(types, s, None)
  }

  /** The reading with a `/_history/version` suffix, which renders back to `s`. */
  function MatchVersioned(types: set<string>, s: string): (r: Option<ReMatch>)
    ensures r.Some? ==> ValidGroupsIn(types, r.value) && r.value.version.Some? && Render(r.value) == s
  {
    match RSplit(s, '/')
    case None => None
    case Some((rest, ver)) =>
      if !ValidId(ver) then None
      else match RSplit(rest, '/')
        case None => None
        case Some((head, marker)) => if marker == HISTORY then MatchHead(types, head, Some(ver)) else None
  }

  /**
   * `[base]Type/id`, with the version already split off: the groups read back to `h` and keep
   * the version given.
   */
  function MatchHead(types: set<string>, h: string, ver: Option<string>): (r: Option<ReMatch>)
    ensures r.Some? ==>
      && (r.value.base.Some? ==> ValidBase(r.value.base.value))
      && r.value.rtype in types && ValidId(r.value.id)
      && r.value.version == ver && Head(r.value) == h
  {
    match RSplit(h, '/')
    case None => None
    case Some((prefix, id)) =>
      assert h == prefix + "/" + id;
      if !ValidId(id) then None
      else match RSplit(prefix, '/')
        case None =>
          if prefix in types then Some(ReMatch(None, prefix, id, ver)) else None
        case Some((b, t)) =>
          assert h == (b + "/") + t + "/" + id;
          if t in types && ValidBase(b + "/") then Some(ReMatch(Some(b + "/"), t, id, ver)) else None
  }

  /**
   * Every well-formed set of groups is found again in the text it spans, with or without a final
   * newline, so no group is ambiguous.
   */
  lemma MatchComplete(m: ReMatch)
    requires ValidGroups(m)
    ensures Match(Render(m)) == Some(m)
    ensures Match(Render(m) + "\n") == Some(m)
  {
    ResourceTypesHaveNoSlash();
    MatchInComplete(RESOURCE_TYPES, m);
  }

  lemma MatchInComplete(types: set<string>, m: ReMatch)
    requires SlashFreeNames(types)
    requires ValidGroupsIn(types, m)
    ensures MatchIn(types, Render(m)) == Some(m)
    ensures MatchIn(types, Render(m) + "\n") == Some(m)
  {
    MatchWholeComplete(types, m);
    var s := Render(m);
    RenderEndsInIdChar(m);
    assert MatchIn(types, s) == MatchWhole(types, s);
    assert (s + "\n")[..|s|] == s;
  }

  /** A rendered match ends with the last character of its id or version id, never a newline. */
  lemma RenderEndsInIdChar(m: ReMatch)
    requires ValidId(m.id)
    requires m.version.Some? ==> ValidId(m.version.value)
    ensures |Render(m)| > 0 && IdChar(Render(m)[|Render(m)| - 1])
  {
    var last := if m.version.Some? then m.version.value else m.id;
    assert Render(m)[|Render(m)| - 1] == last[|last| - 1];
  }

  lemma MatchWholeComplete(types: set<string>, m: ReMatch)
    requires SlashFreeNames(types)
    requires ValidGroupsIn(types, m)
    ensures MatchWhole(types, Render(m)) == Some(m)
  {
    MatchHeadComplete(types, m);
    if m.version.Some? {
      var v := m.version.value;
      var h := Head(m);
      RSplitOfJoin(h + "/" + HISTORY, '/', v);
      RSplitOfJoin(h, '/', HISTORY);
    } else {
      MatchVersionedOfHead(types, m);
    }
  }

  lemma MatchHeadComplete(types: set<string>, m: ReMatch)
    requires SlashFreeNames(types)
    requires ValidGroupsIn(types, m)
    ensures MatchHead(types, Head(m), m.version) == Some(m)
  {
    HeadSplits(types, m);
    var pre := if m.base.Some? then m.base.value else "";
    if m.base.Some? {
      assert ValidBase(m.base.value[..|m.base.value| - 1] + "/");
    } else {
      assert pre + m.rtype == m.rtype;
    }
  }

  /** Without a version the `/_history/` reading fails, since no type is named `_history`. */
  lemma MatchVersionedOfHead(types: set<string>, m: ReMatch)
    requires SlashFreeNames(types)
    requires ValidGroupsIn(types, m)
    ensures MatchVersioned(types, Head(m)) == None
  {
    HeadSplits(types, m);
  }

  /** How `Head(m)` comes apart at its last two slashes. */
  lemma HeadSplits(types: set<string>, m: ReMatch)
    requires SlashFreeNames(types)
    requires ValidGroupsIn(types, m)
    ensures RSplit(Head(m), '/') ==
      Some(((if m.base.Some? then m.base.value else "") + m.rtype, m.id))
    ensures m.base.None? ==> RSplit(m.rtype, '/') == None
    ensures m.base.Some? ==>
      RSplit(m.base.value + m.rtype, '/') == Some((m.base.value[..|m.base.value| - 1], m.rtype))
      && m.base.value[..|m.base.value| - 1] + "/" == m.base.value
  {
    var pre := if m.base.Some? then m.base.value else "";
    assert '/' !in m.rtype;
    RSplitOfJoin(pre + m.rtype, '/', m.id);
    if m.base.Some? {
      var b := m.base.value;
      var b' := b[..|b| - 1];
      assert b == b' + "/";
      assert b + m.rtype == b' + "/" + m.rtype;
      RSplitOfJoin(b', '/', m.rtype);
    }
  }

  /** A bare `Type/id` matches with no base and no version. */
  lemma MatchBare(rtype: string, id: string)
    requires IsResourceType(rtype) && ValidId(id)
    ensures Match(rtype + "/" + id) == Some(ReMatch(None, rtype, id, None))
  {
    ResourceTypesHaveNoSlash();
    MatchInBare(RESOURCE_TYPES, rtype, id);
  }

  lemma MatchInBare(types: set<string>, rtype: string, id: string)
    requires SlashFreeNames(types) && rtype in types && ValidId(id)
    ensures MatchIn(types, rtype + "/" + id) == Some(ReMatch(None, rtype, id, None))
  {
    var m := ReMatch(None, rtype, id, None);
    assert Render(m) == rtype + "/" + id;
    MatchInComplete(types, m);
  }

  /**
   * The example reference of the pattern's tests, a bare type and id, read by the matcher over
   * any slash-free list of names that has `Account` (the closed list has it: `SomeResourceTypes`).
   */
  lemma MatchAccount(types: set<string>)
    requires SlashFreeNames(types) && "Account" in types
    ensures MatchIn(types, "Account" + "/" + "example") == Some(ReMatch(None, "Account", "example", None))
  {
    assert ValidId("example");
    MatchInBare(types, "Account", "example");
  }

  /** A base, a type and an id; the base keeps its final slash. */
  lemma MatchWithBase(types: set<string>)
    requires SlashFreeNames(types) && "Patient" in types
    ensures MatchIn(types, "http://fhir.org/hl7/" + "Patient" + "/" + "sample12345")
      == Some(ReMatch(Some("http://fhir.org/hl7/"), "Patient", "sample12345", None))
  {
    ExampleBase();
    assert ValidId("sample12345");
    MatchInBased(types, "http://fhir.org/hl7/", "Patient", "sample12345");
  }

  /** `baseType/id` with a well-formed base matches with that base and no version. */
  lemma MatchBased(base: string, rtype: string, id: string)
    requires ValidBase(base) && IsResourceType(rtype) && ValidId(id)
    ensures Match(base + rtype + "/" + id) == Some(ReMatch(Some(base), rtype, id, None))
  {
    ResourceTypesHaveNoSlash();
    MatchInBased(RESOURCE_TYPES, base, rtype, id);
  }

  lemma MatchInBased(types: set<string>, base: string, rtype: string, id: string)
    requires SlashFreeNames(types) && ValidBase(base) && rtype in types && ValidId(id)
    ensures MatchIn(types, base + rtype + "/" + id) == Some(ReMatch(Some(base), rtype, id, None))
  {
    var m := ReMatch(Some(base), rtype, id, None);
    assert Render(m) == base + rtype + "/" + id;
    MatchInComplete(types, m);
  }

  lemma ExampleBase()
    ensures ValidBase("http://fhir.org/hl7/")
  {
    var b := "http://fhir.org/hl7/";
    assert b[..7] == "http://";
    assert b[7..] == "fhir.org/hl7/";
  }

  /** A type with no id does not match. */
  lemma MatchBareType()
    ensures Match("Account") == None
  {
    assert '/' !in "Account";
  }
}
