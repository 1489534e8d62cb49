/** The settings controller `mosne_pta_render_settings_page`: recovers the post type
    from the page slug, saves the two fields when the nonce and the capability allow,
    then reads back the values the form is rendered with. */
module SettingsPage {

  import opened Wrappers
  import opened Php
  import opened PageSlug
  import opened OptionKeys
  import opened Options

  /** The request data the handler reads: `$_GET['page']` and the `$_POST` fields
      `mosne_pta_nonce`, `mosne_pta_title`, `mosne_pta_description`; `None` = not set. */
  datatype Request = Request(page: Option<string>, nonce: Option<string>, title: Option<string>, description: Option<string>)

  /** The host calls the handler makes, each an oracle supplied by the caller. */
  datatype AdminHost = AdminHost(
    userCan: string -> bool,              // current_user_can(capability)
    verifyNonce: (string, string) -> bool, // wp_verify_nonce(nonce, action) is truthy
    editPostsCap: string -> string,       // get_post_type_object(P)->cap->edit_posts
    unslash: string -> string,            // wp_unslash
    sanitizeText: string -> string,       // sanitize_text_field
    ksesPost: string -> string,           // wp_kses_post
    language: string)                     // pll_current_language(), or '' without Polylang

  /** What one request to the settings page ends in. */
  datatype Outcome =
    | NotShown   // returned before any output
    | Died       // wp_die: insufficient permissions
    | Shown(postType: string, saved: bool, title: string, description: string)
      // the form, pre-filled with `title` and `description`; `saved`: the notice was shown

  datatype Response = Response(options: map<string, string>, outcome: Outcome)

  /** The capability needed to see any archive-settings page at all. */
  const GenericEditCap: string := "edit_posts"

  const NoncePrefix: string := "mosne_pta_save_"

  /** The nonce action a save for `postType` must carry: one per post type. */
  function NonceAction(postType: string): (action: string)
    ensures NoncePrefix <= action && action[|NoncePrefix|..] == postType
  {
    NoncePrefix + postType
  }

  /** A nonce is present and verifies for this post type's save action. */
  predicate SaveAuthorized(req: Request, host: AdminHost, postType: string)
  {
    req.nonce.Some? && host.verifyNonce(req.nonce.value, NonceAction(postType))
  }

  /** The value written for the title: the unslashed, plain-text-sanitized field, or ''. */
  function TitleInput(req: Request, host: AdminHost): string
  {
    if req.title.Some? then host.sanitizeText(host.unslash(req.title.value)) else ""
  }

  /** The value written for the description: the unslashed, kses-filtered field, or ''. */
  function DescriptionInput(req: Request, host: AdminHost): string
  {
    if req.description.Some? then host.ksesPost(host.unslash(req.description.value)) else ""
  }

  /** The two `update_option` calls of a successful save, in order. */
  function SaveOptions(options: map<string, string>, postType: string, req: Request, host: AdminHost): (saved: map<string, string>)
    ensures var tk, dk := OptionKey(postType, Title, host.language), OptionKey(postType, Description, host.language);
      && saved.Keys == options.Keys + {tk, dk}
      && saved[tk] == TitleInput(req, host)
      && saved[dk] == DescriptionInput(req, host)
      && forall k :: k in options && k != tk && k != dk ==> saved[k] == options[k]
  {
    TitleKeyIsNotDescriptionKey(postType, host.language, host.language);
    options[OptionKey(postType, Title, host.language) := TitleInput(req, host)]
           [OptionKey(postType, Description, host.language) := DescriptionInput(req, host)]
  }

  /** The form shown for `postType`: the stored values, '' when absent. */
  function ShownForm(options: map<string, string>, postType: string, saved: bool, host: AdminHost): Outcome
  {
    Shown(postType, saved,
          GetOptionOr(options, OptionKey(postType, Title, host.language), ""),
          GetOptionOr(options, OptionKey(postType, Description, host.language), ""))
  }

  /** The whole request as a function of the option store before it. */
  function HandleSettingsPage(options: map<string, string>, req: Request, host: AdminHost): (r: Response)
    ensures r.options != options ==> r.outcome.Shown? && r.outcome.saved
    ensures r.outcome.Shown? ==> host.userCan(GenericEditCap) && ParsePage(req.page) == Some(r.outcome.postType)
    ensures r.outcome.Shown? && r.outcome.saved ==> SaveAuthorized(req, host, r.outcome.postType)
  {
    if !host.userCan(GenericEditCap) then Response(options, NotShown)
    else match ParsePage(req.page)
      case None => Response(options, NotShown)
      case Some(postType) =>
        if !SaveAuthorized(req, host, postType) then
          Response(options, ShownForm(options, postType, false, host))
        else if !host.userCan(host.editPostsCap(postType)) then
          Response(options, Died)
        else
          var saved := SaveOptions(options, postType, req, host);
          Response(saved, ShownForm(saved, postType, true, host))
  }

  /** `mosne_pta_render_settings_page`, step by step on the shared store. */
  method RenderSettingsPage(store: Store, req: Request, host: AdminHost) returns (outcome: Outcome)
    modifies store
    ensures store.options == HandleSettingsPage(old(store.options), req, host).options
    ensures outcome == HandleSettingsPage(old(store.options), req, host).outcome
  {
    if !host.userCan(GenericEditCap) {
      return NotShown;
    }
    if req.page.None? || !(PagePrefix <= req.page.value) {
      return NotShown;
    }
    var postType := req.page.value[|PagePrefix|..];

    var saved := false;
    if req.nonce.Some? && host.verifyNonce(req.nonce.value, NonceAction(postType)) {
      var cap := host.editPostsCap(postType);
      if !host.userCan(cap) {
        return Died;
      }
      var lang := host.language;
      var nameTitle := OptionKey(postType, Title, lang);
      var nameDesc := OptionKey(postType, Description, lang);
      var titleValue := if req.title.Some? then host.sanitizeText(host.unslash(req.title.value)) else "";
      var descValue := if req.description.Some? then host.ksesPost(host.unslash(req.description.value)) else "";
      store.Update(nameTitle, titleValue);
      store.Update(nameDesc, descValue);
      saved := true;
    }

    var lang := host.language;
    var nameTitle := OptionKey(postType, Title, lang);
    var nameDesc := OptionKey(postType, Description, lang);
    var valueTitle := GetOptionOr(store.options, nameTitle, "");
    var valueDesc := GetOptionOr(store.options, nameDesc, "");
    outcome := Shown(postType, saved, valueTitle, valueDesc);
  }

  /** Without the generic `edit_posts` capability, nothing is shown and nothing changes. */
  lemma NoGenericCapNoOp(options: map<string, string>, req: Request, host: AdminHost)
    requires !host.userCan(GenericEditCap)
    ensures HandleSettingsPage(options, req, host) == Response(options, NotShown)
  {
  }

  /** A missing page value, or one without the slug prefix, shows nothing and changes nothing. */
  lemma ForeignPageNoOp(options: map<string, string>, req: Request, host: AdminHost)
    requires req.page.None? || !(PagePrefix <= req.page.value)
    ensures HandleSettingsPage(options, req, host) == Response(options, NotShown)
  {
  }

  /** Without a nonce that verifies for `"mosne_pta_save_" + P`, the store is unchanged
      and the form shows the values already stored. */
  lemma NonceGuard(options: map<string, string>, req: Request, host: AdminHost, postType: string)
    requires host.userCan(GenericEditCap)
    requires req.page == Some(PageSlugOf(postType))
    requires req.nonce.None? || !host.verifyNonce(req.nonce.value, NonceAction(postType))
    ensures var r := HandleSettingsPage(options, req, host);
      && r.options == options
      && r.outcome == Shown(postType, false,
                            GetOptionOr(options, OptionKey(postType, Title, host.language), ""),
                            GetOptionOr(options, OptionKey(postType, Description, host.language), ""))
  {
  }

  /** A verified nonce without the post type's own `edit_posts` capability aborts the
      request before any write. */
  lemma CapabilityGuard(options: map<string, string>, req: Request, host: AdminHost, postType: string)
    requires host.userCan(GenericEditCap)
    requires req.page == Some(PageSlugOf(postType))
    requires SaveAuthorized(req, host, postType)
    requires !host.userCan(host.editPostsCap(postType))
    ensures HandleSettingsPage(options, req, host) == Response(options, Died)
  {
  }

  /** A successful save writes both keys, missing fields as '', and changes no other option. */
  lemma SaveWritesBothKeysOnly(options: map<string, string>, req: Request, host: AdminHost, postType: string)
    requires host.userCan(GenericEditCap)
    requires req.page == Some(PageSlugOf(postType))
    requires SaveAuthorized(req, host, postType)
    requires host.userCan(host.editPostsCap(postType))
    ensures var r := HandleSettingsPage(options, req, host);
      var tk, dk := OptionKey(postType, Title, host.language), OptionKey(postType, Description, host.language);
      && r.options.Keys == options.Keys + {tk, dk}
      && r.options[tk] == (if req.title.Some? then host.sanitizeText(host.unslash(req.title.value)) else "")
      && r.options[dk] == (if req.description.Some? then host.ksesPost(host.unslash(req.description.value)) else "")
      && (forall k :: k in options && k != tk && k != dk ==> r.options[k] == options[k])
  {
  }

  /** After a successful save, the form in the same request shows exactly the two
      sanitized values just written. */
  lemma ReadAfterWrite(options: map<string, string>, req: Request, host: AdminHost, postType: string)
    requires host.userCan(GenericEditCap)
    requires req.page == Some(PageSlugOf(postType))
    requires SaveAuthorized(req, host, postType)
    requires host.userCan(host.editPostsCap(postType))
    ensures HandleSettingsPage(options, req, host).outcome
         == Shown(postType, true, TitleInput(req, host), DescriptionInput(req, host))
  {
  }

  /** Every request either leaves the store as it was or is a successful save for the
      post type named by the page slug. */
  lemma StoreChangesOnlyBySave(options: map<string, string>, req: Request, host: AdminHost)
    ensures var r := HandleSettingsPage(options, req, host);
      || r.options == options
      || (exists postType ::
            && req.page == Some(PageSlugOf(postType))
            && host.userCan(GenericEditCap)
            && SaveAuthorized(req, host, postType)
            && host.userCan(host.editPostsCap(postType))
            && r.options == SaveOptions(options, postType, req, host))
  {
  }
}
