/** The menu registrar: one "Archive Settings" submenu entry under each post type
    that shows an admin UI and has an archive. */
module Menu {

  import opened Wrappers
  import opened PageSlug

  /** A registered post type, as far as the registrar looks at it. `hasArchive` is the
      PHP truthiness of the type's `has_archive`; `editPostsCap` is `cap->edit_posts`,
      `None` when it is not set. */
  datatype PostType = PostType(slug: string, showUi: bool, hasArchive: bool, editPostsCap: Option<string>)

  /** One `add_submenu_page` call: parent menu, required capability and page slug. */
  datatype SubmenuEntry = SubmenuEntry(parent: string, capability: string, menuSlug: string)

  const FallbackCap: string := "manage_options"

  /** The entry registered for post type `t`. */
  function SubmenuFor(t: PostType): (e: SubmenuEntry)
    ensures e.menuSlug == PageSlugOf(t.slug)
    ensures e.parent == "edit.php?post_type=" + t.slug
    ensures t.editPostsCap.Some? ==> e.capability == t.editPostsCap.value
    ensures t.editPostsCap.None? ==> e.capability == FallbackCap
  {
    var cap := if t.editPostsCap.Some? then t.editPostsCap.value else FallbackCap;
    SubmenuEntry("edit.php?post_type=" + t.slug, cap, PageSlugOf(t.slug))
  }

  /** The host query `get_post_types(['show_ui' => true])`: the registry, in order,
      restricted to the types that show an admin UI. */
  function ShowUiTypes(registry: seq<PostType>): (types: seq<PostType>)
    ensures forall t :: t in types <==> t in registry && t.showUi
  {
    if |registry| == 0 then []
    else
      var last := registry[|registry| - 1];
      ShowUiTypes(registry[..|registry| - 1]) + (if last.showUi then [last] else [])
  }

  /** The entries the registrar's loop adds for `types`, in order. */
  function ArchiveSubmenus(types: seq<PostType>): (entries: seq<SubmenuEntry>)
    ensures forall e :: e in entries <==> exists t :: t in types && t.hasArchive && e == SubmenuFor(t)
  {
    if |types| == 0 then []
    else
      var last := types[|types| - 1];
      var front := types[..|types| - 1];
      assert forall t :: t in types <==> t in front || t == last;
      ArchiveSubmenus(front) + (if last.hasArchive then [SubmenuFor(last)] else [])
  }

  /** `mosne_pta_add_archive_submenu`: walks the show-UI post types and registers an
      entry for each one with an archive. */
  method AddArchiveSubmenu(registry: seq<PostType>) returns (entries: seq<SubmenuEntry>)
    ensures entries == ArchiveSubmenus(ShowUiTypes(registry))
  {
    var types := ShowUiTypes(registry);
    entries := [];
    for i := 0 to |types|
      invariant entries == ArchiveSubmenus(types[..i])
    {
      var t := types[i];
      assert types[..i + 1][..i] == types[..i];
      if t.hasArchive {
        entries := entries + [SubmenuFor(t)];
      }
    }
    assert types[..|types|] == types;
  }

  /** The host keys its registry by slug: no two post types share one. */
  ghost predicate DistinctSlugs(types: seq<PostType>)
  {
    forall i, j :: 0 <= i < j < |types| ==> types[i].slug != types[j].slug
  }

  ghost predicate DistinctMenuSlugs(entries: seq<SubmenuEntry>)
  {
    forall i, j :: 0 <= i < j < |entries| ==> entries[i].menuSlug != entries[j].menuSlug
  }

  /** A registered type gets an entry exactly when it shows a UI and has an archive. */
  lemma EntryIffQualifies(registry: seq<PostType>, e: SubmenuEntry)
    ensures e in ArchiveSubmenus(ShowUiTypes(registry))
        <==> exists t :: t in registry && t.showUi && t.hasArchive && e == SubmenuFor(t)
  {
  }

  lemma {:induction false} ShowUiKeepsDistinctSlugs(registry: seq<PostType>)
    requires DistinctSlugs(registry)
    ensures DistinctSlugs(ShowUiTypes(registry))
  {
    if |registry| > 0 {
      var n := |registry| - 1;
      var front := registry[..n];
      assert DistinctSlugs(front);
      ShowUiKeepsDistinctSlugs(front);
      var s := ShowUiTypes(front);
      forall k | 0 <= k < |s|
        ensures s[k].slug != registry[n].slug
      {
        assert s[k] in front;
        var m :| 0 <= m < n && front[m] == s[k];
      }
    }
  }

  lemma {:induction false} SubmenusKeepDistinctSlugs(types: seq<PostType>)
    requires DistinctSlugs(types)
    ensures DistinctMenuSlugs(ArchiveSubmenus(types))
  {
    if |types| > 0 {
      var n := |types| - 1;
      var front := types[..n];
      assert DistinctSlugs(front);
      SubmenusKeepDistinctSlugs(front);
      var es := ArchiveSubmenus(front);
      forall k | 0 <= k < |es|
        ensures es[k].menuSlug != PageSlugOf(types[n].slug)
      {
        assert es[k] in es;
        var t :| t in front && t.hasArchive && es[k] == SubmenuFor(t);
        var m :| 0 <= m < n && front[m] == t;
        PageSlugInjective(t.slug, types[n].slug);
      }
    }
  }

  /** With slugs distinct in the registry, every qualifying post type has exactly one
      entry (its page slug appears once), and every other type has none. */
  lemma ExactlyOneEntryPerArchiveType(registry: seq<PostType>, t: PostType)
    requires DistinctSlugs(registry)
    requires t in registry
    ensures var entries := ArchiveSubmenus(ShowUiTypes(registry));
      && DistinctMenuSlugs(entries)
      && ((exists e :: e in entries && e.menuSlug == PageSlugOf(t.slug)) <==> t.showUi && t.hasArchive)
  {
    ShowUiKeepsDistinctSlugs(registry);
    SubmenusKeepDistinctSlugs(ShowUiTypes(registry));
    var entries := ArchiveSubmenus(ShowUiTypes(registry));
    if e :| e in entries && e.menuSlug == PageSlugOf(t.slug) {
      var u :| u in registry && u.showUi && u.hasArchive && e == SubmenuFor(u);
      PageSlugInjective(u.slug, t.slug);
      var i :| 0 <= i < |registry| && registry[i] == u;
      var j :| 0 <= j < |registry| && registry[j] == t;
      assert i == j;
    }
    if t.showUi && t.hasArchive {
      assert SubmenuFor(t) in entries;
    }
  }
}
