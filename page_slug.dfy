/** The submenu page-slug scheme: the menu registrar encodes a post type into the
    `page` query value, and the settings page decodes it back. */
module PageSlug {

  import opened Wrappers

  /** The fixed prefix of every archive-settings page slug. */
  const PagePrefix: string := "mosne-pta-archive-"

  /** The page slug registered for a post type. */
  function PageSlugOf(postType: string): (page: string)
    ensures PagePrefix <= page
    ensures |page| == |PagePrefix| + |postType|
    ensures page[|PagePrefix|..] == postType
  {
    PagePrefix + postType
  }

  /** Recovers the post type from the `page` query value. A missing value, or one that
      does not start with the prefix, yields `None` (the handler then returns at once). */
  function ParsePage(page: Option<string>): (postType: Option<string>)
    ensures postType.Some? <==> page.Some? && PagePrefix <= page.value
    ensures postType.Some? ==> page.value == PagePrefix + postType.value
  {
    if page.Some? && PagePrefix <= page.value then Some(page.value[|PagePrefix|..]) else None
  }

  /** Parsing the slug registered for `postType` gives back exactly `postType`. */
  lemma ParsePageOfSlug(postType: string)
    ensures ParsePage(Some(PageSlugOf(postType))) == Some(postType)
  {
  }

  /** Conversely, every page value that parses is the slug of what it parses to. */
  lemma ParsedPageIsSlug(page: string, postType: string)
    requires ParsePage(Some(page)) == Some(postType)
    ensures page == PageSlugOf(postType)
  {
  }

  /** Two post types never share a page slug. */
  lemma PageSlugInjective(a: string, b: string)
    ensures PageSlugOf(a) == PageSlugOf(b) <==> a == b
  {
  }
}
