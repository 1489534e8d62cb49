/** The template accessors `mosne_pta_get_archive_title` and
    `mosne_pta_get_archive_description`, read-only functions of the option store,
    and how they see what the settings page saves. */
module Accessors {

  import opened Wrappers
  import opened Php
  import opened PageSlug
  import opened OptionKeys
  import opened Options
  import opened SettingsPage

  /** The front-end query state the accessors consult: the `post_type` query var,
      whether this is a post-type archive, and the queried object's `name`. */
  datatype QueryContext = QueryContext(postTypeVar: string, isPostTypeArchive: bool, queriedObjectName: string)

  /** The host calls the accessors make. */
  datatype FrontHost = FrontHost(
    language: string,                     // pll_current_language(), or '' without Polylang
    defaultArchiveTitle: string,          // post_type_archive_title('', false)
    contentFilter: Option<string> -> string) // apply_filters('the_content', value); None is PHP false

  /** The post type an accessor works on: the argument if truthy, else the query var if
      truthy, else the queried archive's name on a post-type archive, else ''. */
  function ResolvePostType(arg: string, q: QueryContext): (postType: string)
    ensures Truthy(arg) ==> postType == arg
    ensures !Truthy(arg) && Truthy(q.postTypeVar) ==> postType == q.postTypeVar
    ensures !Truthy(arg) && !Truthy(q.postTypeVar) && q.isPostTypeArchive ==> postType == q.queriedObjectName
    ensures !Truthy(arg) && !Truthy(q.postTypeVar) && !q.isPostTypeArchive ==> postType == ""
  {
    if Truthy(arg) then arg
    else if Truthy(q.postTypeVar) then q.postTypeVar
    else if q.isPostTypeArchive then q.queriedObjectName
    else ""
  }

  /** The stored option is a usable override: present and truthy. */
  predicate HasOverride(options: map<string, string>, key: string)
  {
    key in options && Truthy(options[key])
  }

  /** `mosne_pta_get_archive_title`: the stored title when truthy, otherwise the
      host's default archive title. */
  function ArchiveTitle(options: map<string, string>, arg: string, q: QueryContext, host: FrontHost): (title: string)
    ensures var key := OptionKey(ResolvePostType(arg, q), Title, host.language);
      && (HasOverride(options, key) ==> title == options[key])
      && (!HasOverride(options, key) ==> title == host.defaultArchiveTitle)
  {
    var stored := GetOption(options, OptionKey(ResolvePostType(arg, q), Title, host.language));
    if stored.Some? && Truthy(stored.value) then stored.value else host.defaultArchiveTitle
  }

  /** `mosne_pta_get_archive_description`: the stored description (PHP false when
      absent) through the content filter, with no fallback. */
  function ArchiveDescription(options: map<string, string>, arg: string, q: QueryContext, host: FrontHost): (desc: string)
    ensures var key := OptionKey(ResolvePostType(arg, q), Description, host.language);
      && (key in options ==> desc == host.contentFilter(Some(options[key])))
      && (key !in options ==> desc == host.contentFilter(None))
  {
    host.contentFilter(GetOption(options, OptionKey(ResolvePostType(arg, q), Description, host.language)))
  }

  /** What a successful save for `postType` makes the accessors return for that post
      type in the same language: the saved title if truthy (otherwise the default title,
      so an empty or "0" title clears the override) and the filtered saved description. */
  lemma SavedValuesReachAccessors(options: map<string, string>, req: Request, admin: AdminHost, postType: string,
                                  arg: string, q: QueryContext, front: FrontHost)
    requires admin.userCan(GenericEditCap)
    requires req.page == Some(PageSlugOf(postType))
    requires SaveAuthorized(req, admin, postType)
    requires admin.userCan(admin.editPostsCap(postType))
    requires ResolvePostType(arg, q) == postType
    requires front.language == admin.language
    ensures var saved := HandleSettingsPage(options, req, admin).options;
      && ArchiveTitle(saved, arg, q, front)
         == (if Truthy(TitleInput(req, admin)) then TitleInput(req, admin) else front.defaultArchiveTitle)
      && ArchiveDescription(saved, arg, q, front) == front.contentFilter(Some(DescriptionInput(req, admin)))
  {
  }

  /** A save for one post type does not change what the accessors return for any other
      post type in the same language. */
  lemma {:induction false} SaveLeavesOtherPostTypes(options: map<string, string>, req: Request, admin: AdminHost,
                                                    arg: string, q: QueryContext, front: FrontHost)
    requires front.language == admin.language
    requires req.page != Some(PageSlugOf(ResolvePostType(arg, q)))
    ensures var after := HandleSettingsPage(options, req, admin).options;
      && ArchiveTitle(after, arg, q, front) == ArchiveTitle(options, arg, q, front)
      && ArchiveDescription(after, arg, q, front) == ArchiveDescription(options, arg, q, front)
  {
    var other := ResolvePostType(arg, q);
    var after := HandleSettingsPage(options, req, admin).options;
    if after != options {
      var postType := HandleSettingsPage(options, req, admin).outcome.postType;
      ParsedPageIsSlug(req.page.value, postType);
      SaveWritesBothKeysOnly(options, req, admin, postType);
      OptionKeyInjective(other, Title, postType, Title, admin.language);
      OptionKeyInjective(other, Title, postType, Description, admin.language);
      OptionKeyInjective(other, Description, postType, Title, admin.language);
      OptionKeyInjective(other, Description, postType, Description, admin.language);
    }
  }

  /** A save in one language does not change what the accessors return for the same
      post type in a language with a different key suffix. */
  lemma {:induction false} SaveLeavesOtherLanguages(options: map<string, string>, req: Request, admin: AdminHost,
                                                    arg: string, q: QueryContext, front: FrontHost)
    requires req.page == Some(PageSlugOf(ResolvePostType(arg, q)))
    requires front.language != admin.language
    requires Truthy(front.language) || Truthy(admin.language)
    ensures var after := HandleSettingsPage(options, req, admin).options;
      && ArchiveTitle(after, arg, q, front) == ArchiveTitle(options, arg, q, front)
      && ArchiveDescription(after, arg, q, front) == ArchiveDescription(options, arg, q, front)
  {
    var postType := ResolvePostType(arg, q);
    var after := HandleSettingsPage(options, req, admin).options;
    if after != options {
      ParsePageOfSlug(postType);
      SaveWritesBothKeysOnly(options, req, admin, postType);
      LanguageKeysIsolated(postType, Title, front.language, admin.language);
      LanguageKeysIsolated(postType, Description, front.language, admin.language);
      TitleKeyIsNotDescriptionKey(postType, front.language, admin.language);
      TitleKeyIsNotDescriptionKey(postType, admin.language, front.language);
    }
  }
}
