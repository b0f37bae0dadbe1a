/**
 * The argument resolver that turns the route's `organizationSlug` into the
 * `Organization` a controller action asks for
 * (src/Resolver/OrganizationValueResolver.php).  The organization table is
 * the sequence `organizations`; its slug column is unique.
 */
module OrganizationValueResolver {
  import opened Wrappers
  import opened Collections
  import opened Domain

  datatype Resolution =
    /** The resolver yields nothing and leaves the argument to other resolvers. */
    | NoValue
    | Resolved(organization: Organization)
    /** A 404 (NotFoundHttpException). */
    | NotFound

  function SlugOf(o: Organization): string { o.slug }

  /** PHP's `!$slug` on a route attribute: absent (null), the empty string or "0". */
  predicate Falsy(slug: Option<string>)
  {
    slug.None? || slug.value == "" || slug.value == "0"
  }

  /** `findOneBy(['slug' => $slug])`. */
  function FindOneBySlug(organizations: seq<Organization>, slug: string): (found: Option<Organization>)
    ensures found.Some? ==> found.value in organizations && found.value.slug == slug
    ensures found.None? <==> forall o :: o in organizations ==> o.slug != slug
  {
    if organizations == [] then None
    else if organizations[0].slug == slug then Some(organizations[0])
    else FindOneBySlug(organizations[1..], slug)
  }

  /**
   * `resolve`: `isOrganizationArgument` says whether the controller argument
   * is declared with type Organization, `slug` is the route attribute.
   */
  function Resolve(isOrganizationArgument: bool, slug: Option<string>, organizations: seq<Organization>): (r: Resolution)
    ensures !isOrganizationArgument || Falsy(slug) ==> r == NoValue
    ensures r.Resolved? ==>
              r.organization in organizations && r.organization.isActive && slug == Some(r.organization.slug)
    ensures isOrganizationArgument && !Falsy(slug) && (forall o :: o in organizations ==> o.slug != slug.value) ==>
              r == NotFound
  {
    if !isOrganizationArgument then NoValue
    else if Falsy(slug) then NoValue
    else
      match FindOneBySlug(organizations, slug.value)
      case None => NotFound
      case Some(organization) => if !organization.isActive then NotFound else Resolved(organization)
  }

  /**
   * With unique slugs the outcome is decided by the organization the slug
   * names: resolved exactly when it exists and is active, not found otherwise.
   */
  lemma ResolvedIffActive(isOrganizationArgument: bool, slug: Option<string>, organizations: seq<Organization>, o: Organization)
    requires Injective(organizations, SlugOf)
    requires isOrganizationArgument && !Falsy(slug)
    requires o in organizations && o.slug == slug.value
    ensures Resolve(isOrganizationArgument, slug, organizations) == (if o.isActive then Resolved(o) else NotFound)
  {
    var found := FindOneBySlug(organizations, slug.value).value;
    var i :| 0 <= i < |organizations| && organizations[i] == found;
    var j :| 0 <= j < |organizations| && organizations[j] == o;
    assert SlugOf(organizations[i]) == SlugOf(organizations[j]);
  }

  /** The lookup happens only for an Organization argument with a truthy slug: any other argument is left alone whatever the table holds. */
  lemma NoLookupForOtherArguments(slug: Option<string>, organizations1: seq<Organization>, organizations2: seq<Organization>)
    ensures Resolve(false, slug, organizations1) == Resolve(false, slug, organizations2) == NoValue
  {
  }
}
