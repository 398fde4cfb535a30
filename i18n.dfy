/** The translation provider: the choice of the initial locale, the
    document direction, and `t(key, fallback)`, which follows a dotted key
    through the loaded translation tree.

    The tree is a JSON value. Following a key segment uses JavaScript's
    own-property test: an object's own keys, an array's or a string's indices
    (canonical decimal numerals) and `length`. */
module I18n {
  import opened Optional
  import opened Text

  // ---------------------------------------------------------------------------
  // Locale

  datatype Locale = En | Ar
  datatype Direction = Ltr | Rtl

  /** The initial locale: Arabic only when the saved value is exactly "ar"
      (`saved` is `None` when nothing is saved or storage cannot be read). */
  function InitialLocale(saved: Option<string>): (l: Locale)
    ensures l == Ar <==> saved == Some("ar")
  {
    if saved == Some("ar") then Ar else En
  }

  /** The locale's name as stored and as the document's `lang`. */
  function LocaleName(l: Locale): string {
    match l
    case En => "en"
    case Ar => "ar"
  }

  /** The document direction: right-to-left exactly for Arabic. */
  function Dir(l: Locale): (d: Direction)
    ensures d == Rtl <==> l == Ar
  {
    if l == Ar then Rtl else Ltr
  }

  /** A locale that is stored and read back is the same locale. */
  lemma SavedLocaleRestored(l: Locale)
    ensures InitialLocale(Some(LocaleName(l))) == l
  {
  }

  // ---------------------------------------------------------------------------
  // The translation tree

  datatype Node =
    | Str(s: string)
    | Num(n: int)
    | Bool(b: bool)
    | Null
    | Arr(items: seq<Node>)
    | Obj(fields: map<string, Node>)

  /** JavaScript truthiness of a value. */
  predicate NodeTruthy(v: Node) {
    match v
    case Str(s) => s != ""
    case Num(n) => n != 0
    case Bool(b) => b
    case Null => false
    case Arr(_) => true
    case Obj(_) => true
  }

  /** The index a property name denotes on an array or a string: only a
      canonical numeral ("0", "7", "12", not "07") names an index. */
  function ParseIndex(p: string): (r: Option<nat>)
    ensures r.Some? <==> IsCanonicalDecimal(p)
  {
    if IsCanonicalDecimal(p) then Some(DigitsValue(p)) else None
  }

  /** Index names are exactly the printed naturals. */
  lemma ParseIndexRoundTrip(i: nat, p: string)
    ensures ParseIndex(NatToString(i)) == Some(i)
    ensures ParseIndex(p) == Some(i) ==> p == NatToString(i)
  {
    DigitsValueOfNatToString(i);
    if ParseIndex(p) == Some(i) {
      NatToStringOfDigitsValue(p);
    }
  }

  /** `cur[p]` when `Object.prototype.hasOwnProperty.call(cur, p)` holds,
      `None` otherwise. */
  function Child(cur: Node, p: string): (r: Option<Node>)
    ensures cur.Obj? ==> (r.Some? <==> p in cur.fields)
    ensures cur.Obj? && p in cur.fields ==> r == Some(cur.fields[p])
    ensures cur.Arr? && ParseIndex(p).Some? && ParseIndex(p).value < |cur.items| ==>
      r == Some(cur.items[ParseIndex(p).value])
    ensures cur.Arr? ==>
      (r.Some? <==> p == "length" || (ParseIndex(p).Some? && ParseIndex(p).value < |cur.items|))
    ensures cur.Arr? && p == "length" ==> r == Some(Num(|cur.items|))
    ensures cur.Str? ==>
      (r.Some? <==> p == "length" || (ParseIndex(p).Some? && ParseIndex(p).value < |cur.s|))
    ensures cur.Str? && p == "length" ==> r == Some(Num(|cur.s|))
    ensures cur.Str? && ParseIndex(p).Some? && ParseIndex(p).value < |cur.s| ==>
      r == Some(Str([cur.s[ParseIndex(p).value]]))
    ensures cur.Str? || cur.Num? || cur.Bool? || cur.Null? ==> (r.Some? ==> cur.Str?)
  {
    match cur
    case Obj(m) => if p in m then Some(m[p]) else None
    case Arr(xs) =>
      if p == "length" then Some(Num(|xs|))
      else (match ParseIndex(p)
            case Some(i) => if i < |xs| then Some(xs[i]) else None
            case None => None)
    case Str(s) =>
      if p == "length" then Some(Num(|s|))
      else (match ParseIndex(p)
            case Some(i) => if i < |s| then Some(Str([s[i]])) else None
            case None => None)
    case _ => None
  }

  /** Element `i` of an array is reached by the segment `String(i)`. */
  lemma ArrayElementReached(xs: seq<Node>, i: nat)
    requires i < |xs|
    ensures Child(Arr(xs), NatToString(i)) == Some(xs[i])
  {
    ParseIndexRoundTrip(i, NatToString(i));
    assert NatToString(i) != "length" by {
      assert IsDigit(NatToString(i)[0]);
    }
  }

  /** One step of the loop: a falsy value has no property to follow. */
  function Step(cur: Node, p: string): Option<Node> {
    if NodeTruthy(cur) then Child(cur, p) else None
  }

  /** Where the segments lead from `cur`, or `None` at the first segment that
      cannot be followed. */
  function Resolve(cur: Node, parts: seq<string>): Option<Node>
    decreases |parts|
  {
    if parts == [] then Some(cur)
    else match Step(cur, parts[0])
      case None => None
      case Some(next) => Resolve(next, parts[1..])
  }

  /** Following a path in two pieces is following the first and then the
      second. */
  lemma {:induction false} ResolveAppend(cur: Node, ps: seq<string>, qs: seq<string>)
    ensures Resolve(cur, ps + qs) ==
      match Resolve(cur, ps) case None => None case Some(mid) => Resolve(mid, qs)
    decreases |ps|
  {
    if ps == [] {
      assert ps + qs == qs;
    } else {
      assert (ps + qs)[0] == ps[0] && (ps + qs)[1..] == ps[1..] + qs;
      match Step(cur, ps[0])
      case None =>
      case Some(next) => ResolveAppend(next, ps[1..], qs);
    }
  }

  /** `t(key, fallback)`: before the translations are loaded, and whenever
      the key does not lead to a string, the answer is `fallback || key`. */
  function Translate(translations: Option<Node>, key: string, fallback: Option<string>): (r: string)
    ensures translations.None? ==> r == OrElse(fallback, key)
    ensures r != OrElse(fallback, key) ==>
      translations.Some? && Resolve(translations.value, Split(key, '.')) == Some(Str(r))
    ensures translations.Some? && Resolve(translations.value, Split(key, '.')).Some? &&
            Resolve(translations.value, Split(key, '.')).value.Str? ==>
      r == Resolve(translations.value, Split(key, '.')).value.s
  {
    match translations
    case None => OrElse(fallback, key)
    case Some(root) =>
      match Resolve(root, Split(key, '.'))
      case Some(Str(s)) => s
      case _ => OrElse(fallback, key)
  }

  /** A key segment that cannot be followed, or a value that is not a
      string, gives `fallback || key`. */
  lemma MissingGivesFallback(root: Node, key: string, fallback: Option<string>)
    requires Resolve(root, Split(key, '.')).None? || !Resolve(root, Split(key, '.')).value.Str?
    ensures Translate(Some(root), key, fallback) == OrElse(fallback, key)
  {
  }

  /** An empty fallback acts as no fallback: the key is returned. */
  lemma EmptyFallbackIsNone(translations: Option<Node>, key: string)
    ensures Translate(translations, key, Some("")) == Translate(translations, key, None)
  {
  }

  /** The tree that holds `leaf` under the nested keys of `path`. */
  function Nest(path: seq<string>, leaf: Node): Node
    decreases |path|
  {
    if path == [] then leaf else Obj(map[path[0] := Nest(path[1..], leaf)])
  }

  /** A string stored under nested keys is found by the dotted key: for
      dot-free segments, `t(path.join('.'))` is the string. */
  lemma {:induction false} NestedKeyFound(path: seq<string>, v: string, fallback: Option<string>)
    requires |path| >= 1
    requires forall k :: 0 <= k < |path| ==> '.' !in path[k]
    ensures Translate(Some(Nest(path, Str(v))), Join(".", path), fallback) == v
  {
    SplitJoin(path, '.');
    assert Join(".", path) == Join(['.'], path);
    NestResolves(path, Str(v));
  }

  lemma {:induction false} NestResolves(path: seq<string>, leaf: Node)
    ensures Resolve(Nest(path, leaf), path) == Some(leaf)
    decreases |path|
  {
    if path != [] {
      NestResolves(path[1..], leaf);
    }
  }

  // ---------------------------------------------------------------------------
  // The provider's state

  class I18nProvider {
    var locale: Locale
    /** `None` until a translation module has loaded. */
    var translations: Option<Node>

    /** The provider as first rendered. */
    constructor (saved: Option<string>)
      ensures locale == InitialLocale(saved) && translations.None?
    {
      locale := InitialLocale(saved);
      translations := None;
    }

    /** `setLocale`: the translations of the previous locale stay until the
        new ones arrive. */
    method SetLocale(l: Locale)
      modifies this`locale
      ensures locale == l
    {
      locale := l;
    }

    /** The end of the loading effect started for `forLocale`: the loaded
        module (`None` when the import failed, which installs an empty
        table), ignored when the locale has changed since the effect began.
        Comparing `forLocale` with the current locale stands in for the
        effect's `mounted` flag: after en, ar and en again, a late answer of
        the first en effect is installed here, where the source drops it;
        both carry the same table. */
    method TranslationsLoaded(forLocale: Locale, loaded: Option<Node>)
      modifies this`translations
      ensures forLocale == locale ==> translations == Some(loaded.GetOr(Obj(map[])))
      ensures forLocale != locale ==> translations == old(translations)
    {
      if forLocale == locale {
        translations := Some(loaded.GetOr(Obj(map[])));
      }
    }

    /** `t`: splits the key on '.' and walks the tree one segment at a time. */
    method T(key: string, fallback: Option<string>) returns (r: string)
      ensures r == Translate(translations, key, fallback)
    {
      if translations.None? {
        return OrElse(fallback, key);
      }
      var root := translations.value;
      var parts := Split(key, '.');
      var cur := root;
      var i := 0;
      while i < |parts|
        invariant 0 <= i <= |parts|
        invariant Resolve(root, parts) == Resolve(cur, parts[i..])
      {
        assert parts[i..][0] == parts[i] && parts[i..][1..] == parts[i + 1..];
        if NodeTruthy(cur) && Child(cur, parts[i]).Some? {
          cur := Child(cur, parts[i]).value;
        } else {
          return OrElse(fallback, key);
        }
        i := i + 1;
      }
      if cur.Str? {
        return cur.s;
      }
      return OrElse(fallback, key);
    }
  }
}
