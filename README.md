# Post Type Archive Settings — verified model

A Dafny model of the logic inside the WordPress plugin "Post Type Archive Settings"
(`mosne-post-type-archive-settings.php`). The plugin lets administrators set a custom
title and rich-text description for each post-type archive, optionally per Polylang
language. Every WordPress and Polylang call is an oracle here: the option store is a
`map<string, string>` held by the `Options.Store` class. The capability check, the nonce
check, the capability lookup, the sanitizers and the `the_content` filter are
function-typed fields of `SettingsPage.AdminHost` and `Accessors.FrontHost`; the current
language and the default archive title are string fields of them.

What is modelled:

- **Page-slug scheme** (`PageSlug`): the registrar's slug `"mosne-pta-archive-" + P`, and
  the settings page's prefix test and strip, with the round trip in both directions.
- **Option-key derivation** (`OptionKeys`): `P + "_archive_title"` or
  `P + "_archive_description"`, followed by `"_" + lang` only when `lang` is truthy in
  PHP terms. A string is falsy when it is `""` or `"0"` (`Php.Truthy`). The save path,
  the render path and both accessors all call this one function.
- **Menu registrar** (`Menu`): the loop over the show-UI post types that adds one
  submenu entry per type with an archive. The entry's capability is the type's
  `edit_posts` capability, or `"manage_options"` when that is not set.
- **Settings controller** (`SettingsPage`): `RenderSettingsPage` runs on the shared
  store step by step. It is proved equal to the pure `HandleSettingsPage`, and the
  guards, the two-key write, the frame and read-after-write are lemmas about that
  function.
- **Template accessors** (`Accessors`): post-type resolution, the title with its
  fallback to the default title, and the filtered description with no fallback. Lemmas
  show what a save makes them return, and that a save does not touch other post types in
  the same language, nor other languages of the same post type.

The title fallback `post_type_archive_title('', false)` (line 120 of the plugin file)
describes the current query, not the post type the accessor resolved, so
`FrontHost.defaultArchiveTitle` is a property of the request and does not depend on the
post type.

## Model

| member | source | states |
|---|---|---|
| `PageSlug.PageSlugOf` | dist/mosne-post-type-archive-settings/mosne-post-type-archive-settings.php:34 | the registered page value starts with `mosne-pta-archive-` and the rest of it is exactly the post type |
| `PageSlug.ParsePage` | dist/mosne-post-type-archive-settings/mosne-post-type-archive-settings.php:47-50 | a post type is recovered exactly when the page value is set and starts with the prefix; the page value is then the prefix followed by the recovered post type |
| `PageSlug.ParsePageOfSlug` | dist/mosne-post-type-archive-settings/mosne-post-type-archive-settings.php:34-50 | parsing the slug registered for `P` gives back exactly `P` |
| `PageSlug.ParsedPageIsSlug` | dist/mosne-post-type-archive-settings/mosne-post-type-archive-settings.php:47-50 | every page value that parses to `P` is the slug registered for `P` |
| `PageSlug.PageSlugInjective` | dist/mosne-post-type-archive-settings/mosne-post-type-archive-settings.php:34 | two post types share a page slug only if they are the same type |
| `OptionKeys.LangSuffix` | dist/mosne-post-type-archive-settings/mosne-post-type-archive-settings.php:59 | the suffix is empty exactly when the language is falsy (`""` or `"0"`); otherwise it is `_` followed by the language |
| `OptionKeys.OptionKey` | dist/mosne-post-type-archive-settings/mosne-post-type-archive-settings.php:59-60 | the key begins with the post type; it is `P_archive_{field}_{lang}` for a truthy language and `P_archive_{field}` otherwise |
| `OptionKeys.TitleKeyIsNotDescriptionKey` | dist/mosne-post-type-archive-settings/mosne-post-type-archive-settings.php:59-60 | for one post type, a title key never equals a description key, for the same language or for two different ones |
| `OptionKeys.QualifiedKeyIsNotPlainKey` | dist/mosne-post-type-archive-settings/mosne-post-type-archive-settings.php:59-60 | with a truthy language, the language-qualified key differs from the unqualified key of the same post type and field |
| `OptionKeys.OptionKeyInjective` | dist/mosne-post-type-archive-settings/mosne-post-type-archive-settings.php:59-60 | within one language, two keys are equal if and only if they name the same field of the same post type |
| `OptionKeys.LanguageKeysIsolated` | dist/mosne-post-type-archive-settings/mosne-post-type-archive-settings.php:58-60 | for one post type and field, two languages share a key if and only if they are equal or both falsy |
| `Options.GetOption` | dist/mosne-post-type-archive-settings/mosne-post-type-archive-settings.php:119 | `get_option($option)` without a default gives a value exactly when the option is stored, and then the stored value; an absent option is PHP false (`None`) |
| `Options.GetOptionOr` | dist/mosne-post-type-archive-settings/mosne-post-type-archive-settings.php:74-75 | `get_option($name, '')` gives the stored value when the option is present and the default otherwise |
| `OptionKeys.KeysCollideAcrossPostTypesAndLanguages` | dist/mosne-post-type-archive-settings/mosne-post-type-archive-settings.php:59 | across different post types AND different languages keys can coincide: the title key of `a` in language `b_archive_title` is the title key of `a_archive_title_b` with no language |
| `Options.Store.Update` | dist/mosne-post-type-archive-settings/mosne-post-type-archive-settings.php:64-65 | `update_option` sets the one key to the value and leaves every other option as it was |
| `Menu.SubmenuFor` | dist/mosne-post-type-archive-settings/mosne-post-type-archive-settings.php:28-35 | the entry hangs under `edit.php?post_type=P` with page slug `mosne-pta-archive-P`; its capability is the type's `edit_posts` when set, else `manage_options` |
| `Menu.ShowUiTypes` | dist/mosne-post-type-archive-settings/mosne-post-type-archive-settings.php:25 | the queried types are exactly the registered types that show an admin UI |
| `Menu.ArchiveSubmenus` | dist/mosne-post-type-archive-settings/mosne-post-type-archive-settings.php:26-38 | an entry is produced exactly for the types in the list that have an archive, each as `SubmenuFor` that type |
| `Menu.AddArchiveSubmenu` | dist/mosne-post-type-archive-settings/mosne-post-type-archive-settings.php:24-39 | the loop registers exactly the entries of `ArchiveSubmenus` over the show-UI types, in registry order |
| `Menu.EntryIffQualifies` | dist/mosne-post-type-archive-settings/mosne-post-type-archive-settings.php:25-37 | an entry is registered if and only if it is the entry of a registered type that shows a UI and has an archive |
| `Menu.ShowUiKeepsDistinctSlugs` | dist/mosne-post-type-archive-settings/mosne-post-type-archive-settings.php:25 | the show-UI query keeps the registry's slugs distinct |
| `Menu.SubmenusKeepDistinctSlugs` | dist/mosne-post-type-archive-settings/mosne-post-type-archive-settings.php:26-37 | types with distinct slugs get entries with distinct page slugs |
| `Menu.ExactlyOneEntryPerArchiveType` | dist/mosne-post-type-archive-settings/mosne-post-type-archive-settings.php:25-37 | no page slug is registered twice, and a registered type has an entry with its page slug if and only if it shows a UI and has an archive |
| `SettingsPage.NonceAction` | dist/mosne-post-type-archive-settings/mosne-post-type-archive-settings.php:53 | the nonce action is `mosne_pta_save_` followed by exactly the post type |
| `SettingsPage.SaveOptions` | dist/mosne-post-type-archive-settings/mosne-post-type-archive-settings.php:58-65 | the save adds or overwrites exactly the title key and the description key, each with its own sanitized value, and keeps every other option |
| `SettingsPage.HandleSettingsPage` | dist/mosne-post-type-archive-settings/mosne-post-type-archive-settings.php:43-75 | the store changes only when the form is shown after a save; a shown form means the user has `edit_posts` and the page parsed to that post type; a save means the nonce verified for that post type |
| `SettingsPage.RenderSettingsPage` | dist/mosne-post-type-archive-settings/mosne-post-type-archive-settings.php:43-75 | the handler's new store and its outcome are those of `HandleSettingsPage` on the old store |
| `SettingsPage.NoGenericCapNoOp` | dist/mosne-post-type-archive-settings/mosne-post-type-archive-settings.php:44-46 | without the `edit_posts` capability, nothing is shown and the store is unchanged |
| `SettingsPage.ForeignPageNoOp` | dist/mosne-post-type-archive-settings/mosne-post-type-archive-settings.php:47-49 | a missing page value, or one without the prefix, shows nothing and leaves the store unchanged |
| `SettingsPage.NonceGuard` | dist/mosne-post-type-archive-settings/mosne-post-type-archive-settings.php:53-75 | without a nonce that verifies for `mosne_pta_save_P`, the store is unchanged and the form shows the stored values, `''` when absent |
| `SettingsPage.CapabilityGuard` | dist/mosne-post-type-archive-settings/mosne-post-type-archive-settings.php:53-57 | a verified nonce without `P`'s own `edit_posts` capability ends in `wp_die` with the store unchanged |
| `SettingsPage.SaveWritesBothKeysOnly` | dist/mosne-post-type-archive-settings/mosne-post-type-archive-settings.php:58-65 | a successful save writes the title key with sanitized unslashed title, or `''` if missing; it writes the description key with the kses-filtered unslashed description, or `''`; no other option changes |
| `SettingsPage.ReadAfterWrite` | dist/mosne-post-type-archive-settings/mosne-post-type-archive-settings.php:58-75 | after a successful save, the form in the same request shows exactly the two values just written |
| `SettingsPage.StoreChangesOnlyBySave` | dist/mosne-post-type-archive-settings/mosne-post-type-archive-settings.php:43-68 | a request either leaves the store unchanged or is an authorized save for the post type its page slug names |
| `Accessors.ResolvePostType` | dist/mosne-post-type-archive-settings/mosne-post-type-archive-settings.php:114-116 | a truthy argument wins; then a truthy `post_type` query var; then the queried object's name on a post-type archive; otherwise `''` |
| `Accessors.ArchiveTitle` | dist/mosne-post-type-archive-settings/mosne-post-type-archive-settings.php:113-121 | the stored title under the resolved post type's language-qualified key when present and truthy, otherwise the host's default archive title |
| `Accessors.ArchiveDescription` | dist/mosne-post-type-archive-settings/mosne-post-type-archive-settings.php:127-135 | the content filter applied to the stored description, or to PHP false when absent, with no fallback |
| `Accessors.SavedValuesReachAccessors` | dist/mosne-post-type-archive-settings/mosne-post-type-archive-settings.php:58-134 | after a save for `P` in language `L`, the accessors for `P` in `L` return the saved title if truthy, otherwise the default title; they return the filtered saved description |
| `Accessors.SaveLeavesOtherPostTypes` | dist/mosne-post-type-archive-settings/mosne-post-type-archive-settings.php:58-134 | a request whose page is not the slug of post type `Q` does not change what the accessors return for `Q` in the language the save used |
| `Accessors.SaveLeavesOtherLanguages` | dist/mosne-post-type-archive-settings/mosne-post-type-archive-settings.php:58-134 | a save in one language does not change what the accessors return for the same post type in a language with a different key suffix |

## Left out

- The key scheme is not injective across post types and languages together: a save for post type `a` in language `b_archive_title` overwrites the title of post type `a_archive_title_b` with no language (`OptionKeys.KeysCollideAcrossPostTypesAndLanguages`). The isolation lemmas therefore cover other post types in the same language and other languages of the same post type only.
- The page and menu titles `__('Archive Settings', 'mosne-pta')` and the callback `mosne_pta_render_settings_page` passed to `add_submenu_page` are not fields of `Menu.SubmenuEntry`: they are the same constants for every entry and only label and route the page.
- `cap->edit_posts` appears twice, as `Menu.PostType.editPostsCap` for the registrar and as the oracle `SettingsPage.AdminHost.editPostsCap` for the save path; the model does not tie the two to one registry. The registrar also substitutes `manage_options` when the capability is unset, which the save path does not.
- HTML output is not modelled: the heading with the post type's label, the form markup, `wp_nonce_field`, `wp_editor`, `submit_button`, the "Settings saved." notice and the escaping. `Outcome.Shown` keeps only whether the notice appears and the two values the form is filled with.
- `mosne_pta_the_archive_title` and `mosne_pta_the_archive_description` are left out. They only echo the accessors' results, escaped for the title and raw for the description.
- The internals of `sanitize_text_field`, `wp_kses_post` and `wp_unslash` are not modelled. They are WordPress library code, and here they are opaque oracles.
- Nonce cryptography and capability lookup are not modelled. `wp_verify_nonce` and `current_user_can` become boolean oracles.
- The `the_content` filter pipeline, `post_type_archive_title` and `pll_current_language` are host or foreign calls. They become oracles or inputs.
- The current language is one value per request. Without Polylang it is `''`. Polylang's `false` is modelled as `''`, since both are falsy and give no suffix.
- `SettingsPage.RenderSettingsPage` does not model the case of a post type that is not registered. The save path reads `get_post_type_object(P)->cap->edit_posts`, and for an unknown `P` that dereferences null. Here the capability lookup is a total oracle.
- `$_GET['page']`, the `post_type` query var and the POST fields are modelled as strings. PHP arrays passed in their place are not modelled.
- Option values are modelled as strings. An option that another component stored as a non-string is not modelled.
- `has_archive` is modelled by its PHP truthiness only. The archive slug a string value would give is not used by the plugin.
- Text-domain loading, hook registration and the `ABSPATH` guard are bootstrapping with no logic of their own.
- Races between concurrent requests on the option store are not modelled. The plugin takes no locks, and the last write wins.
