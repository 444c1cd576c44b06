/**
 * URLs as the records `urlparse` splits them into, and the one kind of
 * reference resolution the client performs: joining a base URL with an
 * absolute-path reference (section 5.2.2 of RFC 3986).
 */
module Urls {
  import opened Wrappers

  /** A URL as `urlsplit` splits it; an empty component stands for an absent one. */
  datatype Url = Url(scheme: string, authority: string, path: string, query: string, fragment: string)

  /** The reference `/p` on its own: no scheme, no authority, no query, no fragment. */
  function PathOnly(path: string): (r: Url)
    ensures r.path == path && r.scheme == r.authority == r.query == r.fragment == ""
  {
    Url("", "", path, "", "")
  }

  /** The URL that the empty string splits into (the only falsy URL). */
  const EmptyUrl: Url := PathOnly("")

  /** A configured URL counts as set when it is present and not the empty string. */
  predicate TruthyUrl(u: Option<Url>) {
    u.Some? && u.value != EmptyUrl
  }

  /**
   * A path that starts with `/` and holds no `.` or `..` segment, so that
   * removing dot segments (section 5.2.4 of RFC 3986) leaves it unchanged.
   * Every path the client joins is of this kind.
   */
  predicate PlainAbsolutePath(path: string) {
    && |path| > 0 && path[0] == '/'
    && forall i :: 0 <= i < |path| - 1 ==> !(path[i] == '/' && path[i + 1] == '.')
  }

  /**
   * `urljoin(base, path)` for a plain absolute path. A missing base yields the
   * reference itself; otherwise the target keeps the base's scheme and
   * authority, takes the reference's path, and has neither the base's query
   * nor its fragment.
   */
  function UrlJoin(base: Option<Url>, path: string): (r: Url)
    requires PlainAbsolutePath(path)
    ensures r.path == path
    ensures r.query == "" && r.fragment == ""
    ensures base.Some? ==> r.scheme == base.value.scheme && r.authority == base.value.authority
    ensures base.None? ==> r == PathOnly(path)
    ensures TruthyUrl(Some(r))
  {
    match base
    case None => PathOnly(path)
    case Some(b) => Url(b.scheme, b.authority, path, "", "")
  }

  /**
   * Joining is insensitive to the base's own path, query and fragment: joining
   * onto an already joined URL is the same as joining onto the original base.
   */
  lemma JoinRebases(base: Option<Url>, p: string, q: string)
    requires PlainAbsolutePath(p) && PlainAbsolutePath(q)
    ensures UrlJoin(Some(UrlJoin(base, p)), q) == UrlJoin(base, q)
  {
  }

  /** Joining onto the empty URL is the same as having no base at all. */
  lemma JoinEmptyBase(path: string)
    requires PlainAbsolutePath(path)
    ensures UrlJoin(Some(EmptyUrl), path) == UrlJoin(None, path)
  {
  }
}
