/**
 * The resource paths of the community-manager web service. `RemoteConnector` and
 * `SocialService` each declare the same constants; a path is the service root, a
 * resource name and, for a single resource, its id.
 */
module Paths {
  import opened Wrappers
  import opened Decimal

  const Service := "/smartcampus.vas.community-manager.web/"
  const GroupResource := "eu.trentorise.smartcampus.cm.model.Group/"
  const CommunityResource := "eu.trentorise.smartcampus.cm.model.Community/"
  const TopicResource := "eu.trentorise.smartcampus.cm.model.Topic/"
  const VisibilityResource := "assignments/"
  const MyContentsResource := "content/"
  const SharedContentResource := "sharedcontent/"
  const ShareResource := "share/"
  const UnshareResource := "unshare/"
  const CreateEntityTypeResource := "entitytype/"
  const EntityTypeByIdResource := "entitytype-by-id/"
  const EntityTypeByConceptIdResource := "entitytype-by-conceptid/"
  const EntityTypeByPrefixResource := "entitytype-by-prefix/"
  const ConceptsResource := "suggestion/"
  const EntityResource := "entity/"

  /** `SERVICE + resource`: a collection of resources. */
  function Collection(resource: string): string {
    Service + resource
  }

  /** `SERVICE + resource + id`: one resource. */
  function Path(resource: string, id: string): (p: string)
    ensures |p| == |Service| + |resource| + |id|
    ensures p[..|Service|] == Service && p[|Service| + |resource|..] == id
  {
    Service + resource + id
  }

  /** `SERVICE + resource + n` for a `long` id, which string concatenation writes in decimal. */
  function NumberedPath(resource: string, n: Long): string {
    Path(resource, LongText(n))
  }

  /** The id a path of `resource` names, read back as a number: the inverse of `NumberedPath`. */
  function IdOfPath(resource: string, path: string): Option<int> {
    if |path| < |Service| + |resource| || path[..|Service| + |resource|] != Service + resource then None
    else ParseDecimal(path[|Service| + |resource|..])
  }

  /** Within one resource, the path determines the id. */
  lemma PathInjective(resource: string, a: string, b: string)
    requires Path(resource, a) == Path(resource, b)
    ensures a == b
  {
    assert a == Path(resource, a)[|Service| + |resource|..];
  }

  /** A numbered path reads back as its id, so two ids give the same path only when they are equal. */
  lemma NumberedPathReadsBack(resource: string, m: Long, n: Long)
    ensures IdOfPath(resource, NumberedPath(resource, m)) == Some(m)
    ensures NumberedPath(resource, m) == NumberedPath(resource, n) <==> m == n
  {
    var p := NumberedPath(resource, m);
    assert p[..|Service| + |resource|] == Service + resource;
    ParseLongText(m);
    if p == NumberedPath(resource, n) {
      PathInjective(resource, LongText(m), LongText(n));
      LongTextInjective(m, n);
    }
  }
}
