/** The `useLanguage` hook: the locale is the first path segment, switching
    language rewrites that segment, and `t(key)` walks a nested dictionary
    along the dot-separated parts of the key. */
module Language {
  import opened Strings

  /** A dictionary value: a translated text or a nested table. */
  datatype Entry = Text(text: string) | Table(children: map<string, Entry>)

  /** The four bundled dictionaries. */
  datatype Catalog = Catalog(th: Entry, en: Entry, jp: Entry, la: Entry)

  const FALLBACK_LOCALE := "th"

  /** `getCurrentLocale`: segment 1 of the path, or `th` when it is empty or
      missing. The locale is taken from the path alone. */
  function CurrentLocale(pathname: string): (locale: string)
    ensures locale != "" && '/' !in locale
  {
    var segments := Split(pathname, '/');
    if |segments| > 1 && segments[1] != "" then segments[1] else FALLBACK_LOCALE
  }

  /** The segments after `segments[1] = newLocale`; assigning one past the end
      of a one-element array extends it. */
  function WithLocaleSegment(segments: seq<string>, newLocale: string): (r: seq<string>)
    requires |segments| >= 1
    ensures |r| == if |segments| >= 2 then |segments| else 2
    ensures r[1] == newLocale
    ensures forall i :: 0 <= i < |segments| && i != 1 ==> r[i] == segments[i]
  {
    if |segments| >= 2 then segments[1 := newLocale] else segments + [newLocale]
  }

  /** The path `changeLanguage` navigates to. When the new locale holds no
      `/`, its segments are the old ones with segment 1 replaced. */
  function SwitchedPath(pathname: string, newLocale: string): (p: string)
    ensures '/' !in newLocale ==> Split(p, '/') == WithLocaleSegment(Split(pathname, '/'), newLocale)
  {
    var segments := WithLocaleSegment(Split(pathname, '/'), newLocale);
    if '/' in newLocale then Join(segments, '/')
    else SplitJoin(segments, '/'); Join(segments, '/')
  }

  /** Switching to a locale that is a single non-empty segment and then reading
      the locale back gives that locale. */
  lemma SwitchThenCurrent(pathname: string, newLocale: string)
    requires newLocale != "" && '/' !in newLocale
    ensures CurrentLocale(SwitchedPath(pathname, newLocale)) == newLocale
  {
    var segments := WithLocaleSegment(Split(pathname, '/'), newLocale);
    SplitJoin(segments, '/');
  }

  /** Switching rewrites segment 1 only: every other segment of the path is
      the same, and none is added beyond the one a bare path needs. */
  lemma SwitchKeepsOtherSegments(pathname: string, newLocale: string)
    requires '/' !in newLocale
    ensures var before := Split(pathname, '/');
            var after := Split(SwitchedPath(pathname, newLocale), '/');
            && |after| == (if |before| >= 2 then |before| else 2)
            && after[1] == newLocale
            && forall i :: 0 <= i < |before| && i != 1 ==> after[i] == before[i]
  {
    var segments := WithLocaleSegment(Split(pathname, '/'), newLocale);
    SplitJoin(segments, '/');
  }

  /** Switching to the locale the path already shows leaves the path as it is. */
  lemma SwitchToSameLocale(pathname: string)
    requires |Split(pathname, '/')| >= 2
    ensures SwitchedPath(pathname, Split(pathname, '/')[1]) == pathname
  {
    var segments := Split(pathname, '/');
    assert segments[1 := segments[1]] == segments;
    JoinSplit(pathname, '/');
  }

  const COOKIE_NAME := "NEXT_LOCALE"

  /** The cookie `changeLanguage` writes: the locale, for the whole site, for
      a year. Its value reads back as the locale. */
  function LocaleCookie(locale: string): (cookie: string)
    ensures StartsWith(cookie, COOKIE_NAME + "=")
    ensures ';' !in locale ==> Before(cookie[|COOKIE_NAME| + 1..], ';') == locale
  {
    var cookie := COOKIE_NAME + "=" + locale + "; path=/; max-age=31536000";
    assert cookie[..|COOKIE_NAME| + 1] == COOKIE_NAME + "=";
    assert cookie[|COOKIE_NAME| + 1..] == locale + [';'] + " path=/; max-age=31536000";
    if ';' in locale then cookie
    else BeforeOfJoined(locale, " path=/; max-age=31536000", ';'); cookie
  }

  /** `dictionaries[locale] || dictionaries.th` */
  function DictionaryFor(catalog: Catalog, locale: string): (e: Entry)
    ensures locale !in {"en", "jp", "la"} ==> e == catalog.th
  {
    if locale == "en" then catalog.en
    else if locale == "jp" then catalog.jp
    else if locale == "la" then catalog.la
    else catalog.th
  }

  /** `text` is stored somewhere in `e`: `e` is that text, or one of its
      children holds it. */
  predicate Holds(e: Entry, text: string)
    decreases e
  {
    match e
    case Text(t) => t == text
    case Table(m) => exists k :: k in m && Holds(m[k], text)
  }

  /** One step of the `reduce`: `obj?.[k] ?? {}`. A text has no children. */
  function Child(e: Entry, k: string): (c: Entry)
    ensures e.Table? && k in e.children ==> c == e.children[k]
    ensures !(e.Table? && k in e.children) ==> c == Table(map[])
    ensures c.Text? ==> Holds(e, c.text)
  {
    match e
    case Table(m) => if k in m then m[k] else Table(map[])
    case Text(_) => Table(map[])
  }

  /** The whole `reduce` over the key's parts: a text it reaches is one the
      dictionary stores. */
  function Walk(e: Entry, parts: seq<string>): (r: Entry)
    ensures r.Text? ==> Holds(e, r.text)
    decreases parts
  {
    if parts == [] then e else Walk(Child(e, parts[0]), parts[1..])
  }

  /** `t(key)`: the text the key's path reaches in the current locale's
      dictionary, otherwise the key itself. It never makes up a text: the
      result is the key or a text stored in that dictionary. */
  function Translate(catalog: Catalog, pathname: string, key: string): (r: string)
    ensures r == key || Holds(DictionaryFor(catalog, CurrentLocale(pathname)), r)
  {
    match Walk(DictionaryFor(catalog, CurrentLocale(pathname)), Split(key, '.'))
    case Text(s) => s
    case Table(_) => key
  }

  /** A walk along `a + b` is a walk along `a` followed by one along `b`. */
  lemma {:induction false} WalkAppend(e: Entry, a: seq<string>, b: seq<string>)
    ensures Walk(e, a + b) == Walk(Walk(e, a), b)
    decreases a
  {
    if a == [] {
      assert a + b == b;
    } else {
      assert (a + b)[0] == a[0];
      assert (a + b)[1..] == a[1..] + b;
      WalkAppend(Child(e, a[0]), a[1..], b);
    }
  }

  /** Once a step is missing the walk stays on the empty table. */
  lemma {:induction false} WalkFromEmpty(parts: seq<string>)
    ensures Walk(Table(map[]), parts) == Table(map[])
  {
    if parts != [] {
      WalkFromEmpty(parts[1..]);
    }
  }

  /** A key with a missing step, or one that runs past a text, translates to
      itself. */
  lemma MissingStepGivesKey(catalog: Catalog, pathname: string, key: string, i: nat)
    requires i < |Split(key, '.')|
    requires Walk(DictionaryFor(catalog, CurrentLocale(pathname)), Split(key, '.')[..i + 1]) == Table(map[])
    ensures Translate(catalog, pathname, key) == key
  {
    var parts := Split(key, '.');
    assert parts == parts[..i + 1] + parts[i + 1..];
    WalkAppend(DictionaryFor(catalog, CurrentLocale(pathname)), parts[..i + 1], parts[i + 1..]);
    WalkFromEmpty(parts[i + 1..]);
  }

  /** A dictionary holding `leaf` under the nested keys `parts`. */
  function Nest(parts: seq<string>, leaf: Entry): Entry {
    if parts == [] then leaf else Table(map[parts[0] := Nest(parts[1..], leaf)])
  }

  lemma {:induction false} WalkNest(parts: seq<string>, leaf: Entry)
    ensures Walk(Nest(parts, leaf), parts) == leaf
  {
    if parts != [] {
      WalkNest(parts[1..], leaf);
    }
  }

  /** Round trip: whatever dictionary the locale selects, a dotted key whose
      parts lead to a text translates to that text. */
  lemma TranslateNested(catalog: Catalog, pathname: string, parts: seq<string>, text: string)
    requires |parts| >= 1 && forall i :: 0 <= i < |parts| ==> '.' !in parts[i]
    requires Walk(DictionaryFor(catalog, CurrentLocale(pathname)), parts) == Text(text)
    ensures Translate(catalog, pathname, Join(parts, '.')) == text
  {
    var key := Join(parts, '.');
    SplitJoin(parts, '.');
    assert Split(key, '.') == parts;
  }

  /** A dotted key whose parts lead to a nested table rather than a text
      translates to itself. */
  lemma TableGivesKey(catalog: Catalog, pathname: string, parts: seq<string>, table: map<string, Entry>)
    requires |parts| >= 1 && forall i :: 0 <= i < |parts| ==> '.' !in parts[i]
    requires Walk(DictionaryFor(catalog, CurrentLocale(pathname)), parts) == Table(table)
    ensures Translate(catalog, pathname, Join(parts, '.')) == Join(parts, '.')
  {
    var key := Join(parts, '.');
    SplitJoin(parts, '.');
    assert Split(key, '.') == parts;
  }

  /** The single-path dictionary `Nest(parts, Text(text))` is one such
      dictionary: its key translates to its text. */
  lemma TranslateNest(catalog: Catalog, pathname: string, parts: seq<string>, text: string)
    requires |parts| >= 1 && forall i :: 0 <= i < |parts| ==> '.' !in parts[i]
    requires DictionaryFor(catalog, CurrentLocale(pathname)) == Nest(parts, Text(text))
    ensures Translate(catalog, pathname, Join(parts, '.')) == text
  {
    WalkNest(parts, Text(text));
    TranslateNested(catalog, pathname, parts, text);
  }
}
