/** The option-name convention: `{post_type}_archive_{field}`, suffixed with
    `_{lang}` when the current language is truthy. The save path, the render path
    and both template accessors all derive their keys from `OptionKey`. */
module OptionKeys {

  import opened Php

  /** The two stored fields of an archive override. */
  datatype Field = Title | Description

  function FieldSuffix(field: Field): (s: string)
  {
    match field
    case Title => "_archive_title"
    case Description => "_archive_description"
  }

  /** `"_" + lang` when `lang` is truthy, otherwise nothing. */
  function LangSuffix(lang: string): (s: string)
    ensures s == "" <==> !Truthy(lang)
    ensures Truthy(lang) ==> s[0] == '_' && s[1..] == lang
  {
    if Truthy(lang) then "_" + lang else ""
  }

  /** The option name under which `field` of `postType` is stored for language `lang`. */
  function OptionKey(postType: string, field: Field, lang: string): (key: string)
    ensures postType <= key
    ensures Truthy(lang) ==> key == postType + FieldSuffix(field) + "_" + lang
    ensures !Truthy(lang) ==> key == postType + FieldSuffix(field)
  {
    postType + FieldSuffix(field) + LangSuffix(lang)
  }

  lemma CancelPrefix(p: string, a: string, b: string)
    requires p + a == p + b
    ensures a == b
  {
    assert a == (p + a)[|p|..];
    assert b == (p + b)[|p|..];
  }

  lemma CancelSuffix(a: string, b: string, s: string)
    requires a + s == b + s
    ensures a == b
  {
    assert |a| == |b|;
    assert a == (a + s)[..|a|];
    assert b == (b + s)[..|b|];
  }

  /** The stored fields end in different letters: "...title" and "...description". */
  lemma LastCharOfField(postType: string, field: Field)
    ensures var s := postType + FieldSuffix(field);
      s[|s| - 1] == (if field == Title then 'e' else 'n')
  {
  }

  /** For one post type, a title key never equals a description key, whatever the two
      languages (in particular for the same language). */
  lemma TitleKeyIsNotDescriptionKey(postType: string, titleLang: string, descLang: string)
    ensures OptionKey(postType, Title, titleLang) != OptionKey(postType, Description, descLang)
  {
    var t := OptionKey(postType, Title, titleLang);
    var d := OptionKey(postType, Description, descLang);
    assert t[|postType| + 9] == 't';
    assert d[|postType| + 9] == 'd';
  }

  /** With a truthy language, the language-qualified key differs from the unqualified one. */
  lemma QualifiedKeyIsNotPlainKey(postType: string, field: Field, lang: string)
    requires Truthy(lang)
    ensures OptionKey(postType, field, lang) != OptionKey(postType, field, "")
  {
  }

  /** Across post types and languages together the scheme is not injective: an odd
      language code can make one post type's key equal to another's unqualified key. */
  lemma KeysCollideAcrossPostTypesAndLanguages()
    ensures OptionKey("a", Title, "b_archive_title") == OptionKey("a_archive_title_b", Title, "")
    ensures "a" != "a_archive_title_b" && "b_archive_title" != ""
  {
  }

  /** Within one language the scheme is injective: two keys coincide exactly when
      they name the same field of the same post type. */
  lemma {:induction false} OptionKeyInjective(p1: string, f1: Field, p2: string, f2: Field, lang: string)
    ensures OptionKey(p1, f1, lang) == OptionKey(p2, f2, lang) <==> p1 == p2 && f1 == f2
  {
    if OptionKey(p1, f1, lang) == OptionKey(p2, f2, lang) {
      var a, b := p1 + FieldSuffix(f1), p2 + FieldSuffix(f2);
      assert a + LangSuffix(lang) == b + LangSuffix(lang);
      CancelSuffix(a, b, LangSuffix(lang));
      if f1 == f2 {
        assert p1 == a[..|p1|] && p2 == b[..|p2|];
      } else {
        LastCharOfField(p1, f1);
        LastCharOfField(p2, f2);
        assert false;
      }
    }
  }

  /** Two languages share the keys of a post type exactly when their suffixes agree:
      when they are equal, or when both are falsy. */
  lemma {:induction false} LanguageKeysIsolated(postType: string, field: Field, l1: string, l2: string)
    ensures OptionKey(postType, field, l1) == OptionKey(postType, field, l2)
        <==> l1 == l2 || (!Truthy(l1) && !Truthy(l2))
  {
    var base := postType + FieldSuffix(field);
    if OptionKey(postType, field, l1) == OptionKey(postType, field, l2) {
      CancelPrefix(base, LangSuffix(l1), LangSuffix(l2));
      if Truthy(l1) && Truthy(l2) {
        CancelPrefix("_", l1, l2);
      }
    }
  }
}
