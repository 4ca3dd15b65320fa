/** The language provider: the current language (English until detection
    runs), `detectLanguage`, which classifies the browser's language by its
    first two characters, and `t`, which follows a '.'-separated key through
    the current language's translation table and falls back to the key. */
module Language {
  import opened Wrappers
  import opened Strings

  datatype Lang = En | Ml | Ta

  /** The JavaScript values a lookup can meet: `undefined`, strings,
      numbers (a string's `length`) and plain objects with their own
      members. */
  datatype JsValue = Undefined | Str(s: string) | Num(n: int) | Obj(members: map<string, JsValue>)

  /** JavaScript truthiness: `undefined`, `""` and `0` are falsy. */
  predicate Truthy(v: JsValue) {
    match v
    case Undefined => false
    case Str(s) => s != ""
    case Num(n) => n != 0
    case Obj(_) => true
  }

  /** A property name that denotes an array index: decimal digits without a leading zero. */
  predicate IsIndexKey(k: string) {
    |k| >= 1 && (forall i :: 0 <= i < |k| ==> IsDigit(k[i])) && (|k| == 1 || k[0] != '0')
  }

  /** `v?.[k]`: an own member of an object, a character or the length of a
      string, and `undefined` for everything else, including any lookup on
      `undefined` itself. */
  function Step(v: JsValue, k: string): (r: JsValue)
    ensures v.Undefined? ==> r.Undefined?
    ensures v.Obj? && k !in v.members ==> r.Undefined?
  {
    match v
    case Undefined => Undefined
    case Num(_) => Undefined
    case Obj(m) => if k in m then m[k] else Undefined
    case Str(s) =>
      if k == "length" then Num(|s|)
      else if IsIndexKey(k) && DigitsValue(k) < |s| then Str([s[DigitsValue(k)]])
      else Undefined
  }

  /** The value after the loop `for (const k of keys) value = value?.[k]`. */
  function Walk(v: JsValue, keys: seq<string>): JsValue {
    if |keys| == 0 then v else Step(Walk(v, keys[..|keys| - 1]), keys[|keys| - 1])
  }

  /** What `t(key)` returns, as written: the value found, or the key when
      that value is falsy. The declared return type is `string`, but the
      value found need not be one. */
  function TValue(table: JsValue, key: string): JsValue {
    var value := Walk(table, Split(key, '.'));
    if Truthy(value) then value else Str(key)
  }

  /** `t` as evidently intended: the string the key leads to, or the key
      itself whenever the key does not lead to a non-empty string. */
  function Translate(table: JsValue, key: string): (r: string)
    ensures Walk(table, Split(key, '.')).Str? && Walk(table, Split(key, '.')).s != "" ==>
      r == Walk(table, Split(key, '.')).s
    ensures !(Walk(table, Split(key, '.')).Str? && Walk(table, Split(key, '.')).s != "") ==> r == key
  {
    var value := Walk(table, Split(key, '.'));
    if value.Str? && value.s != "" then value.s else key
  }

  // ---------------------------------------------------------------- walking

  /** Walking a path in two parts is walking the second from where the first ends. */
  lemma {:induction false} WalkAppend(v: JsValue, a: seq<string>, b: seq<string>)
    ensures Walk(v, a + b) == Walk(Walk(v, a), b)
  {
    if |b| == 0 {
      assert a + b == a;
    } else {
      var b' := b[..|b| - 1];
      assert (a + b)[..|a + b| - 1] == a + b';
      assert (a + b)[|a + b| - 1] == b[|b| - 1];
      WalkAppend(v, a, b');
    }
  }

  /** Once a segment is missing the rest of the walk stays `undefined`: optional chaining never throws. */
  lemma {:induction false} WalkUndefined(keys: seq<string>)
    ensures Walk(Undefined, keys).Undefined?
  {
    if |keys| > 0 {
      WalkUndefined(keys[..|keys| - 1]);
    }
  }

  /** If some segment of the key is missing from where the walk has got to,
      `t` returns the key itself. */
  lemma MissingSegmentGivesKey(table: JsValue, key: string, i: nat)
    requires i < |Split(key, '.')|
    requires Walk(table, Split(key, '.')[..i + 1]).Undefined?
    ensures TValue(table, key) == Str(key)
    ensures Translate(table, key) == key
  {
    var keys := Split(key, '.');
    assert keys == keys[..i + 1] + keys[i + 1..];
    WalkAppend(table, keys[..i + 1], keys[i + 1..]);
    WalkUndefined(keys[i + 1..]);
  }

  /** For a key built from '.'-free segments, `t` follows exactly those segments. */
  lemma FollowsSegments(table: JsValue, path: seq<string>)
    requires |path| >= 1
    requires forall i :: 0 <= i < |path| ==> '.' !in path[i]
    ensures Truthy(Walk(table, path)) ==> TValue(table, Join(path, '.')) == Walk(table, path)
    ensures !Truthy(Walk(table, path)) ==> TValue(table, Join(path, '.')) == Str(Join(path, '.'))
  {
    SplitJoin(path, '.');
  }

  /** The corrected lookup agrees with the original whenever the original gives a string. */
  lemma TranslateAgrees(table: JsValue, key: string)
    ensures TValue(table, key).Str? ==> Translate(table, key) == TValue(table, key).s
    ensures !TValue(table, key).Str? ==> Translate(table, key) == key
  {
  }

  // ---------------------------------------------------------------- tables

  /** The `nav` section of each language's translation table. */
  function NavTable(l: Lang): (r: JsValue)
    ensures r.Obj? && r.members.Keys == {"projects", "features", "blog", "contact", "callNow"}
    ensures forall k :: k in r.members ==> r.members[k].Str? && r.members[k].s != ""
  {
    match l
    case En => Obj(map["projects" := Str("Projects"), "features" := Str("Features"), "blog" := Str("Blog"),
      "contact" := Str("Contact"), "callNow" := Str("Call Now")])
    case Ml => Obj(map["projects" := Str("പ്രോജക്ടുകൾ"), "features" := Str("സവിശേഷതകൾ"), "blog" := Str("ബ്ലോഗ്"),
      "contact" := Str("ബന്ധപ്പെടുക"), "callNow" := Str("ഇപ്പോൾ വിളിക്കുക")])
    case Ta => Obj(map["projects" := Str("திட்டங்கள்"), "features" := Str("அம்சங்கள்"), "blog" := Str("வலைப்பதிவு"),
      "contact" := Str("தொடர்பு"), "callNow" := Str("இப்போது அழைக்கவும்")])
  }

  /** `translations[language]`, restricted to its `nav` section. */
  function Translations(l: Lang): (r: JsValue)
    ensures r.Obj? && r.members.Keys == {"nav"} && r.members["nav"] == NavTable(l)
  {
    Obj(map["nav" := NavTable(l)])
  }

  lemma TwoSegments(key: string, a: string, b: string)
    requires key == a + "." + b && '.' !in a && '.' !in b
    ensures Split(key, '.') == [a, b]
  {
    assert Join([a, b], '.') == key;
    SplitJoin([a, b], '.');
  }

  lemma WalkTwo(v: JsValue, a: string, b: string)
    ensures Walk(v, [a, b]) == Step(Step(v, a), b)
  {
    assert [a][..0] == [];
    assert Walk(v, [a]) == Step(v, a);
    assert [a, b][..1] == [a];
    assert Walk(v, [a, b]) == Step(Walk(v, [a]), b);
  }

  /** Every `nav.<entry>` key is translated to its entry, in every language. */
  lemma NavEntryFound(l: Lang, entry: string, key: string)
    requires key == "nav." + entry && '.' !in entry && entry in NavTable(l).members
    ensures TValue(Translations(l), key) == NavTable(l).members[entry]
    ensures Translate(Translations(l), key) == NavTable(l).members[entry].s
  {
    TwoSegments(key, "nav", entry);
    WalkTwo(Translations(l), "nav", entry);
  }

  /** A key for an entry the `nav` section lacks falls back to the key. */
  lemma NavEntryMissing(l: Lang, entry: string, key: string)
    requires key == "nav." + entry && '.' !in entry && entry !in NavTable(l).members
    ensures TValue(Translations(l), key) == Str(key)
    ensures Translate(Translations(l), key) == key
  {
    TwoSegments(key, "nav", entry);
    WalkTwo(Translations(l), "nav", entry);
  }

  /** A key whose first segment names none of the table's sections (`nav`,
      `hero`, `features`, `leadForm`, `chatbot`) falls back to the key,
      however it goes on. */
  lemma SectionMissing(l: Lang, section: string, rest: string, key: string)
    requires key == section + "." + rest && '.' !in section
    requires section != "nav" && section != "hero" && section != "features" && section != "leadForm" && section != "chatbot"
    ensures TValue(Translations(l), key) == Str(key)
    ensures Translate(Translations(l), key) == key
  {
    SplitAfterPiece(section, rest, '.');
    var keys := Split(key, '.');
    assert keys[..1] == [section];
    assert [section][..0] == [];
    MissingSegmentGivesKey(Translations(l), key, 0);
  }

  /** As written, `t` returns the whole `nav` sub-table for the key "nav";
      the corrected lookup returns the key. */
  lemma SectionKeyGivesTable(l: Lang, key: string)
    requires key == "nav"
    ensures TValue(Translations(l), key) == NavTable(l)
    ensures Translate(Translations(l), key) == key
  {
    SplitNoSeparator(key, '.');
    assert [key][..0] == [];
  }

  /** As written, `t` returns a number for `nav.<entry>.length`: the length
      of the entry's text. The corrected lookup returns the key. */
  lemma LengthKeyGivesNumber(l: Lang, entry: string, key: string)
    requires key == "nav." + entry + ".length" && '.' !in entry && entry in NavTable(l).members
    ensures TValue(Translations(l), key) == Num(|NavTable(l).members[entry].s|)
    ensures Translate(Translations(l), key) == key
  {
    assert key == "nav" + "." + entry + "." + "length";
    ThreeSegments(key, "nav", entry, "length");
    WalkThree(Translations(l), "nav", entry, "length");
  }

  lemma ThreeSegments(key: string, a: string, b: string, c: string)
    requires key == a + "." + b + "." + c && '.' !in a && '.' !in b && '.' !in c
    ensures Split(key, '.') == [a, b, c]
  {
    assert Join([a, b, c], '.') == key by {
      assert [a, b, c][1..] == [b, c];
      assert Join([b, c], '.') == b + "." + c;
    }
    SplitJoin([a, b, c], '.');
  }

  lemma WalkThree(v: JsValue, a: string, b: string, c: string)
    ensures Walk(v, [a, b, c]) == Step(Step(Step(v, a), b), c)
  {
    assert [a, b, c][..2] == [a, b];
    WalkTwo(v, a, b);
  }

  // ---------------------------------------------------------------- detection

  /** `detectLanguage()`: `navigator.language || navigator.userLanguage`,
      cut to its first two characters. `None` is the `TypeError` thrown when
      both are missing (`undefined.substring`). */
  function DetectLanguage(language: string, userLanguage: Option<string>): (r: Option<Lang>)
    ensures r.None? <==> language == "" && userLanguage.None?
    ensures r == Some(Ml) <==> (StartsWith(language, "ml") || (language == "" && userLanguage.Some? && StartsWith(userLanguage.value, "ml")))
    ensures r == Some(Ta) <==> (StartsWith(language, "ta") || (language == "" && userLanguage.Some? && StartsWith(userLanguage.value, "ta")))
  {
    var browserLang := if language != "" then Some(language) else userLanguage;
    match browserLang
    case None => None
    case Some(b) =>
      var langCode := if |b| < 2 then b else b[..2];
      if langCode == "ml" then Some(Ml)
      else if langCode == "ta" then Some(Ta)
      else Some(En)
  }

  /** The state behind `LanguageContext`. */
  class LanguageProvider {
    var language: Lang

    /** `useState<Language>('en')` */
    constructor ()
      ensures language == En
    {
      language := En;
    }

    method SetLanguage(l: Lang)
      modifies this
      ensures language == l
    {
      language := l;
    }

    /** The mount effect: detects the language and makes it current; when
        detection throws, the language stays as it was. */
    method Detect(browserLanguage: string, userLanguage: Option<string>) returns (detected: Option<Lang>)
      modifies this
      ensures detected == DetectLanguage(browserLanguage, userLanguage)
      ensures detected.Some? ==> language == detected.value
      ensures detected.None? ==> language == old(language)
    {
      detected := DetectLanguage(browserLanguage, userLanguage);
      if detected.Some? {
        language := detected.value;
      }
    }

    /** `t(key)` */
    method T(key: string) returns (r: JsValue)
      ensures r == TValue(Translations(language), key)
    {
      var keys := Split(key, '.');
      var value := Translations(language);
      for i := 0 to |keys|
        invariant value == Walk(Translations(language), keys[..i])
      {
        assert keys[..i + 1][..i] == keys[..i];
        value := Step(value, keys[i]);
      }
      assert keys[..|keys|] == keys;
      r := if Truthy(value) then value else Str(key);
    }
  }
}
