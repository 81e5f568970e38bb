/** `uri_to_ide_and_source`: split a URI into an identifier and the source it comes from. */
module UriUtils {
  import opened Wrappers
  import opened Strings
  import opened FhirResourceTypes
  import opened FhirResourceRe

  const UNKNOWN_SOURCE: string := "UNKNOWN"

  /**
   * The identifier and its source. A FHIR reference gives its id (after `Type/` when
   * `includeResource` holds) and its base, which is None for a relative `Type/id`. Any other URI is
   * split at its last '#', else at its last '/', else it is all identifier from an unknown source.
   */
  function UriToIdeAndSource(uri: string, includeResource: bool): (r: (string, Option<string>))
    ensures Match(uri).None? ==> r.1.Some?
    ensures Match(uri).None? && '#' in uri ==> r.1.value + "#" + r.0 == uri && '#' !in r.0
    ensures Match(uri).None? && '#' !in uri && '/' in uri ==> r.1.value + "/" + r.0 == uri && '/' !in r.0
    ensures Match(uri).None? && '#' !in uri && '/' !in uri ==> r == (uri, Some(UNKNOWN_SOURCE))
  {
    match Match(uri)
    case Some(m) => ((if includeResource then m.rtype + "/" else "") + m.id, m.base)
    case None =>
      match RSplit(uri, '#')
      case Some((source, ide)) => (ide, Some(source))
      case None =>
        match RSplit(uri, '/')
        case Some((source, ide)) => (ide, Some(source))
        case None => (uri, Some(UNKNOWN_SOURCE))
  }

  /** On a FHIR reference the pair gives back the reference's groups: id (or Type/id) and base. */
  lemma IdeAndSourceOfReference(m: ReMatch, includeResource: bool)
    requires ValidGroups(m)
    ensures UriToIdeAndSource(Render(m), includeResource)
      == ((if includeResource then m.rtype + "/" else "") + m.id, m.base)
  {
    MatchComplete(m);
  }

  /** A relative `Type/id` reference has no source. */
  lemma SourceOfRelativeReference(rtype: string, id: string)
    requires IsResourceType(rtype) && ValidId(id)
    ensures UriToIdeAndSource(rtype + "/" + id, true) == (rtype + "/" + id, None)
  {
    MatchBare(rtype, id);
    IdeAndSourceOfMatch(rtype + "/" + id, ReMatch(None, rtype, id, None), true);
  }

  lemma IdeAndSourceOfMatch(uri: string, m: ReMatch, includeResource: bool)
    requires Match(uri) == Some(m)
    ensures UriToIdeAndSource(uri, includeResource) == ((if includeResource then m.rtype + "/" else "") + m.id, m.base)
  {
  }
}
