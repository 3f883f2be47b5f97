/** The storefront's language cell and its translation lookup `t`, which
    walks a dot-separated key through nested translation objects. */
module Language {
  import opened Common

  /** A value in the translation tree: a string or an object of named
      values. */
  datatype TValue = Text(s: string) | Node(fields: map<string, TValue>)

  /** `obj[k]`; `None` is `undefined`. */
  function Get(fields: map<string, TValue>, k: string): (r: Option<TValue>)
    ensures r.Some? <==> k in fields
  {
    if k in fields then Some(fields[k]) else None
  }

  /** JavaScript truthiness of a looked-up value: `undefined` and the empty
      string are falsy, objects and other strings truthy. */
  predicate Truthy(v: Option<TValue>) {
    v.Some? && v.value != Text("")
  }

  /** How the walk through the key path ends: it returns the key early, or
      it reaches a value. */
  datatype Walked = Early | Reached(v: Option<TValue>)

  /** The loop of `t`: each step goes into an object; anything else before
      the path ends returns early. */
  function Walk(v: Option<TValue>, keys: seq<string>): Walked
    decreases |keys|
  {
    if keys == [] then Reached(v)
    else if v.Some? && v.value.Node? then Walk(Get(v.value.fields, keys[0]), keys[1..])
    else Early
  }

  /** What `t(key)` returns under `language`. */
  function TSpec(translations: map<string, TValue>, language: string, key: string): TValue {
    match Walk(Get(translations, language), Split(key, '.'))
    case Early => Text(key)
    case Reached(v) => if Truthy(v) then v.value else Text(key)
  }

  /** The value as a template string renders it. */
  function TextOf(v: TValue): string {
    match v
    case Text(s) => s
    case Node(_) => "[object Object]"
  }

  /** The `language` state of `LanguageProvider`. */
  class LanguageContext {
    var language: string

    /** The stored choice when there is a non-empty one, `ru` otherwise
        (also when storage cannot be read: `stored` is then `None`). */
    constructor (stored: Option<string>)
      ensures language == if stored.Some? && stored.value != "" then stored.value else "ru"
    {
      if stored.Some? && stored.value != "" {
        language := stored.value;
      } else {
        language := "ru";
      }
    }

    /** `changeLanguage(lang)`; the write to storage is left out. */
    method ChangeLanguage(lang: string)
      modifies this
      ensures language == lang
    {
      language := lang;
    }

    /** `t(key)` */
    method T(translations: map<string, TValue>, key: string) returns (r: TValue)
      ensures r == TSpec(translations, language, key)
    {
      var keys := Split(key, '.');
      var value := Get(translations, language);
      var i := 0;
      while i < |keys|
        invariant 0 <= i <= |keys|
        invariant Walk(value, keys[i..]) == Walk(Get(translations, language), keys)
      {
        assert keys[i..][1..] == keys[i + 1..];
        if value.Some? && value.value.Node? {
          value := Get(value.value.fields, keys[i]);
        } else {
          return Text(key);
        }
        i := i + 1;
      }
      assert keys[i..] == [];
      if Truthy(value) {
        r := value.value;
      } else {
        r := Text(key);
      }
    }
  }

  // ---------------------------------------------------------------------
  // Properties
  // ---------------------------------------------------------------------

  /** Walking `a + b` walks `a`, then `b` from where `a` ended. */
  lemma {:induction false} WalkAppend(v: Option<TValue>, a: seq<string>, b: seq<string>)
    ensures Walk(v, a + b) == match Walk(v, a) case Early => Early case Reached(w) => Walk(w, b)
    decreases |a|
  {
    if a != [] {
      assert (a + b)[1..] == a[1..] + b;
      if v.Some? && v.value.Node? {
        WalkAppend(Get(v.value.fields, a[0]), a[1..], b);
      }
    } else {
      assert a + b == b;
    }
  }

  /** A key without dots is looked up directly in the language's object;
      a missing or empty value gives the key back. */
  lemma PlainKey(translations: map<string, TValue>, language: string, key: string)
    requires '.' !in key
    ensures language in translations && translations[language].Node? && key in translations[language].fields
            && translations[language].fields[key] != Text("")
            ==> TSpec(translations, language, key) == translations[language].fields[key]
    ensures !(language in translations && translations[language].Node? && key in translations[language].fields
              && translations[language].fields[key] != Text(""))
            ==> TSpec(translations, language, key) == Text(key)
  {
    SplitNoSeparator(key, '.');
    var root := Get(translations, language);
    assert [key][1..] == [];
    if root.Some? && root.value.Node? {
      assert Walk(root, [key]) == Walk(Get(root.value.fields, key), []);
    } else {
      assert Walk(root, [key]) == Early;
    }
  }

  /** A two-part key `a.b` reads field `b` of object `a`; when `a` is a
      string the key comes back. */
  lemma DottedKey(translations: map<string, TValue>, language: string, a: string, b: string)
    requires '.' !in a && '.' !in b
    requires language in translations && translations[language].Node?
    ensures var root := translations[language].fields;
      && (a in root && root[a].Node? && b in root[a].fields && root[a].fields[b] != Text("")
          ==> TSpec(translations, language, a + "." + b) == root[a].fields[b])
      && (a in root && root[a].Text? ==> TSpec(translations, language, a + "." + b) == Text(a + "." + b))
  {
    SplitCons(a, '.', b);
    SplitNoSeparator(b, '.');
    assert a + "." + b == a + ['.'] + b;
    var keys := Split(a + "." + b, '.');
    assert keys == [a, b];
    assert keys[1..] == [b] && [b][1..] == [];
    var root := translations[language].fields;
    assert Walk(Get(translations, language), keys) == Walk(Get(root, a), [b]);
    if a in root && root[a].Node? {
      assert Walk(Get(root, a), [b]) == Walk(Get(root[a].fields, b), []);
    }
  }

  /** `t` never yields an empty string for a non-empty key, so a fallback
      after `t(...) ||` is never taken. */
  lemma NeverEmpty(translations: map<string, TValue>, language: string, key: string)
    requires key != ""
    ensures TSpec(translations, language, key) != Text("")
    ensures TextOf(TSpec(translations, language, key)) != ""
  {
  }

  /** A language missing from the table gives every key back. */
  lemma UnknownLanguage(translations: map<string, TValue>, language: string, key: string)
    requires language !in translations
    ensures TSpec(translations, language, key) == Text(key)
  {
    var keys := Split(key, '.');
    assert keys != [];
  }
}
