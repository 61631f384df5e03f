/** The translation lookup `t` of `src/i18n/core.ts`: a dotted key is
    split into segments and walked down the locale's nested translation
    object. The two translation files are not part of this model: the
    object per locale is a parameter. */
module I18nCore {
  import opened Wrappers
  import opened Strings

  /** A translation object: a text, or an object of named members. */
  datatype Tree = Leaf(text: string) | Node(children: map<string, Tree>)

  /** The locale `t` uses when the caller passes none. */
  const DefaultLocale := "pt-BR"

  function LocaleOrDefault(locale: Option<string>): (l: string)
    ensures locale.Some? ==> l == locale.value
    ensures locale.None? ==> l == DefaultLocale
  {
    if locale.Some? then locale.value else DefaultLocale
  }

  /** Walking `path` down `tree`: each segment must name a member of an
      object, and the walk must end on a text. */
  function Resolve(tree: Tree, path: seq<string>): Option<string>
    decreases |path|
  {
    if path == [] then
      if tree.Leaf? then Some(tree.text) else None
    else if tree.Node? && path[0] in tree.children then Resolve(tree.children[path[0]], path[1..])
    else None
  }

  /** What `t(key, locale)` returns: the text the key's segments reach in
      the locale's object, or the key itself. */
  function Translation(key: string, locale: Option<string>, translations: map<string, Tree>): (s: string)
  {
    var loc := LocaleOrDefault(locale);
    if loc !in translations then key
    else
      match Resolve(translations[loc], Split(key, '.'))
      case Some(text) => text
      case None => key
  }

  /** `t(key, locale)`: the loop walks one segment per step and returns
      the key as soon as a segment is missing. */
  method T(key: string, locale: Option<string>, translations: map<string, Tree>) returns (s: string)
    ensures s == Translation(key, locale, translations)
  {
    var keys := Split(key, '.');
    var loc := LocaleOrDefault(locale);
    if loc !in translations {
      // `translations[locale]` is undefined, so the first step fails
      return key;
    }
    var value := translations[loc];
    var i := 0;
    while i < |keys|
      invariant 0 <= i <= |keys|
      invariant Resolve(translations[loc], keys) == Resolve(value, keys[i..])
      decreases |keys| - i
    {
      var k := keys[i];
      assert keys[i..][1..] == keys[i + 1..];
      if value.Node? && k in value.children {
        value := value.children[k];
      } else {
        return key;
      }
      i := i + 1;
    }
    s := if value.Leaf? then value.text else key;
  }

  /** A tree with the text `text` placed at `path`, replacing whatever was
      on the way. */
  function Put(tree: Tree, path: seq<string>, text: string): Tree
    decreases |path|
  {
    if path == [] then Leaf(text)
    else
      var children := if tree.Node? then tree.children else map[];
      var child := if path[0] in children then children[path[0]] else Node(map[]);
      Node(children[path[0] := Put(child, path[1..], text)])
  }

  /** A text put at a path is found there. */
  lemma {:induction false} PutThenResolve(tree: Tree, path: seq<string>, text: string)
    ensures Resolve(Put(tree, path, text), path) == Some(text)
    decreases |path|
  {
    if path != [] {
      var children := if tree.Node? then tree.children else map[];
      var child := if path[0] in children then children[path[0]] else Node(map[]);
      PutThenResolve(child, path[1..], text);
    }
  }

  /** Whether `a` is a prefix of `b`. */
  predicate IsPrefix(a: seq<string>, b: seq<string>)
  {
    |a| <= |b| && a == b[..|a|]
  }

  /** Two paths with the same first segment are prefix-related exactly
      when their tails are. */
  lemma PrefixTails(a: seq<string>, b: seq<string>)
    requires a != [] && b != [] && a[0] == b[0]
    ensures IsPrefix(a, b) <==> IsPrefix(a[1..], b[1..])
  {
    if IsPrefix(a, b) {
      assert a[1..] == b[..|a|][1..] == b[1..][..|a| - 1];
    }
    if IsPrefix(a[1..], b[1..]) {
      assert a == [a[0]] + a[1..];
      assert b[..|a|] == [b[0]] + b[1..][..|a| - 1];
    }
  }

  /** Putting a text at one path leaves every path that is neither a
      prefix nor an extension of it as it was. */
  lemma {:induction false} PutKeepsOthers(tree: Tree, path: seq<string>, text: string, q: seq<string>)
    requires !IsPrefix(q, path) && !IsPrefix(path, q)
    ensures Resolve(Put(tree, path, text), q) == Resolve(tree, q)
    decreases |path|
  {
    assert path != [] && q != [];
    var children := if tree.Node? then tree.children else map[];
    var child := if path[0] in children then children[path[0]] else Node(map[]);
    if q[0] == path[0] {
      PrefixTails(q, path);
      PrefixTails(path, q);
      PutKeepsOthers(child, path[1..], text, q[1..]);
      if !(tree.Node? && path[0] in tree.children) {
        EmptyResolvesNothing(q[1..]);
      }
    }
  }

  /** An empty object resolves no non-empty path. */
  lemma EmptyResolvesNothing(q: seq<string>)
    requires q != []
    ensures Resolve(Node(map[]), q) == None
  {
  }

  /** A key built by joining dot-free segments translates to the text at
      those segments, in the requested locale. */
  lemma DottedKeyFindsText(segments: seq<string>, locale: string, translations: map<string, Tree>, text: string)
    requires |segments| >= 1
    requires forall i :: 0 <= i < |segments| ==> '.' !in segments[i]
    requires locale in translations && Resolve(translations[locale], segments) == Some(text)
    ensures Translation(Join(segments, "."), Some(locale), translations) == text
  {
    SplitJoin(segments, '.');
  }

  /** A locale without translations shows every key as is. */
  lemma UnknownLocaleShowsKeys(key: string, locale: string, translations: map<string, Tree>)
    requires locale !in translations
    ensures Translation(key, Some(locale), translations) == key
  {
  }

  /** Whatever `t` returns is the key itself or a text of the locale's
      object. */
  lemma TranslationIsKeyOrText(key: string, locale: Option<string>, translations: map<string, Tree>)
    ensures var s := Translation(key, locale, translations);
            var loc := LocaleOrDefault(locale);
            s == key || (loc in translations && exists path :: Resolve(translations[loc], path) == Some(s))
  {
    var loc := LocaleOrDefault(locale);
    if loc in translations && Resolve(translations[loc], Split(key, '.')).Some? {
      assert Resolve(translations[loc], Split(key, '.')) == Some(Translation(key, locale, translations));
    }
  }
}
