/** The dashboard header: the language selector and the profile menu, two
    dropdowns of which at most one is open, and the logout button. */
module HeaderModel {
  import opened Wrappers
  import opened Strings
  import opened Language

  /** An entry of the language selector. */
  datatype LanguageOption = LanguageOption(code: string, name: string, flag: string, localName: string)

  /** The selector's entries, English first: one per bundled dictionary, each
      code once. */
  function Languages(): (langs: seq<LanguageOption>)
    ensures |langs| == 4 && langs[0].code == "en"
    ensures forall i, j :: 0 <= i < j < |langs| ==> langs[i].code != langs[j].code
    ensures forall l :: l in langs ==> l.code in {"en", "th", "la", "jp"}
  {
    [ LanguageOption("en", "English", "\U{1F1FA}\U{1F1F8}", "English"),
      LanguageOption("th", "ไทย", "\U{1F1F9}\U{1F1ED}", "ไทย"),
      LanguageOption("la", "ລາວ", "\U{1F1F1}\U{1F1E6}", "ລາວ"),
      LanguageOption("jp", "日本語", "\U{1F1EF}\U{1F1F5}", "日本語") ]
  }

  /** `languages.find(lang => lang.code === locale) || languages[0]` */
  function CurrentLanguageDetails(locale: string): (l: LanguageOption)
    ensures l in Languages()
    ensures locale in {"en", "th", "la", "jp"} ==> l.code == locale
    ensures locale !in {"en", "th", "la", "jp"} ==> l == Languages()[0]
  {
    var langs := Languages();
    if locale == langs[0].code then langs[0]
    else if locale == langs[1].code then langs[1]
    else if locale == langs[2].code then langs[2]
    else if locale == langs[3].code then langs[3]
    else langs[0]
  }

  /** Both fallbacks disagree: a path whose locale segment names no bundled
      language shows English in the header while `t` translates from the
      Thai dictionary. */
  lemma UnknownLocaleFallbacksDisagree(catalog: Catalog, pathname: string)
    requires CurrentLocale(pathname) !in {"en", "th", "la", "jp"}
    ensures CurrentLanguageDetails(CurrentLocale(pathname)).code == "en"
    ensures DictionaryFor(catalog, CurrentLocale(pathname)) == catalog.th
  {
  }

  /** A path without a locale segment shows Thai in both places. */
  lemma MissingLocaleIsThai(catalog: Catalog, pathname: string)
    requires |Split(pathname, '/')| < 2 || Split(pathname, '/')[1] == ""
    ensures CurrentLanguageDetails(CurrentLocale(pathname)).code == "th"
    ensures DictionaryFor(catalog, CurrentLocale(pathname)) == catalog.th
  {
  }

  /** Where the logout button navigates: to `/login` when the DELETE to the
      auth route answered `ok`, nowhere otherwise. */
  function LogoutTarget(ok: bool): (target: Option<string>)
    ensures target.Some? <==> ok
    ensures target.Some? ==> target.value == "/login"
  {
    if ok then Some("/login") else None
  }

  class HeaderState {
    var languageOpen: bool
    var profileOpen: bool

    /** At most one dropdown is open. */
    predicate Valid()
      reads this
    {
      !(languageOpen && profileOpen)
    }

    constructor ()
      ensures !languageOpen && !profileOpen && Valid()
    {
      languageOpen := false;
      profileOpen := false;
    }

    /** Opening or closing the language selector closes the profile menu. */
    method ToggleLanguage()
      modifies this
      ensures languageOpen == !old(languageOpen) && !profileOpen
      ensures Valid()
    {
      languageOpen := !languageOpen;
      profileOpen := false;
    }

    /** Opening or closing the profile menu closes the language selector. */
    method ToggleProfile()
      modifies this
      ensures profileOpen == !old(profileOpen) && !languageOpen
      ensures Valid()
    {
      profileOpen := !profileOpen;
      languageOpen := false;
    }

    /** Choosing a language: navigate to the path with the new locale
        segment, store the locale cookie, close the selector. */
    method HandleLanguageChange(pathname: string, code: string) returns (newPath: string, cookie: string)
      requires Valid()
      modifies this
      ensures newPath == SwitchedPath(pathname, code)
      ensures cookie == LocaleCookie(code)
      ensures !languageOpen && profileOpen == old(profileOpen)
      ensures Valid()
    {
      newPath := SwitchedPath(pathname, code);
      cookie := LocaleCookie(code);
      languageOpen := false;
    }

    /** A mouse-down outside both dropdown containers closes both; one inside
        changes nothing. */
    method MouseDown(insideDropdown: bool)
      requires Valid()
      modifies this
      ensures !insideDropdown ==> !languageOpen && !profileOpen
      ensures insideDropdown ==> languageOpen == old(languageOpen) && profileOpen == old(profileOpen)
      ensures Valid()
    {
      if !insideDropdown {
        languageOpen := false;
        profileOpen := false;
      }
    }
  }

  /** After choosing any of the selector's languages the header shows that
      language. */
  lemma ChosenLanguageIsShown(pathname: string, choice: LanguageOption)
    requires choice in Languages()
    ensures CurrentLanguageDetails(CurrentLocale(SwitchedPath(pathname, choice.code))) == choice
  {
    SwitchThenCurrent(pathname, choice.code);
  }
}
