/**
  Element-name normalisation (`normalizeElementName` in packages/runtime/src/registry.ts):
  every `-` is removed and the remaining text is lower-cased, so that `Stack-Layout`,
  `StackLayout` and `stacklayout` share one registry key.
*/
module ElementNames {

  /** The lower-case form of one character; only the ASCII letters A-Z change. */
  function LowerChar(c: char): (d: char)
    ensures 'A' <= c <= 'Z' ==> 'a' <= d <= 'z' && d as int - c as int == 32
    ensures !('A' <= c <= 'Z') ==> d == c
  {
    if 'A' <= c <= 'Z' then (c as int - 'A' as int + 'a' as int) as char else c
  }

  predicate IsLowerCase(s: string) {
    forall i :: 0 <= i < |s| ==> !('A' <= s[i] <= 'Z')
  }

  predicate HasNoHyphen(s: string) {
    forall i :: 0 <= i < |s| ==> s[i] != '-'
  }

  /** `s.replace(/-/g, '')`: the characters of `s` other than `-`, in order. */
  function StripHyphens(s: string): (r: string)
    ensures HasNoHyphen(r)
    ensures |r| <= |s|
    ensures HasNoHyphen(s) ==> r == s
  {
    if s == [] then []
    else if s[0] == '-' then StripHyphens(s[1..])
    else [s[0]] + StripHyphens(s[1..])
  }

  /** `s.toLowerCase()`, character by character. */
  function ToLowerCase(s: string): (r: string)
    ensures |r| == |s|
    ensures forall i :: 0 <= i < |s| ==> r[i] == LowerChar(s[i])
  {
    if s == [] then [] else [LowerChar(s[0])] + ToLowerCase(s[1..])
  }

  /** The registry key of an element name. */
  function NormalizeElementName(elementName: string): (key: string)
    ensures HasNoHyphen(key) && IsLowerCase(key)
    ensures |key| <= |elementName|
  {
    ToLowerCase(StripHyphens(elementName))
  }

  /** A registry key is a name that normalisation leaves unchanged. */
  predicate IsNormalized(key: string) {
    NormalizeElementName(key) == key
  }

  lemma {:induction false} StripHyphensConcat(a: string, b: string)
    ensures StripHyphens(a + b) == StripHyphens(a) + StripHyphens(b)
  {
    if a != [] {
      assert (a + b)[0] == a[0];
      assert (a + b)[1..] == a[1..] + b;
      StripHyphensConcat(a[1..], b);
    } else {
      assert a + b == b;
    }
  }

  lemma ToLowerCaseConcat(a: string, b: string)
    ensures ToLowerCase(a + b) == ToLowerCase(a) + ToLowerCase(b)
  {
  }

  /** Normalisation works piecewise: the key of a concatenation is the concatenation of the keys. */
  lemma NormalizeConcat(a: string, b: string)
    ensures NormalizeElementName(a + b) == NormalizeElementName(a) + NormalizeElementName(b)
  {
    StripHyphensConcat(a, b);
    ToLowerCaseConcat(StripHyphens(a), StripHyphens(b));
  }

  /** Lower-casing never introduces or removes a hyphen, and is the identity on lower-case text. */
  lemma ToLowerCaseKeepsShape(s: string)
    ensures HasNoHyphen(s) ==> HasNoHyphen(ToLowerCase(s))
    ensures IsLowerCase(s) ==> ToLowerCase(s) == s
  {
  }

  /** Normalising a registry key gives the key back, so normalisation is idempotent. */
  lemma NormalizeIdempotent(elementName: string)
    ensures IsNormalized(NormalizeElementName(elementName))
  {
    var key := NormalizeElementName(elementName);
    ToLowerCaseKeepsShape(key);
  }

  /** Inserting a hyphen anywhere in a name does not change its key. */
  lemma NormalizeIgnoresHyphen(a: string, b: string)
    ensures NormalizeElementName(a + "-" + b) == NormalizeElementName(a + b)
  {
    NormalizeConcat(a + "-", b);
    NormalizeConcat(a, "-");
    NormalizeConcat(a, b);
    assert NormalizeElementName("-") == [];
  }

  /** Two names that differ only in the case of their letters have the same key. */
  lemma {:induction false} NormalizeIgnoresCase(s: string, t: string)
    requires |s| == |t|
    requires forall i :: 0 <= i < |s| ==> LowerChar(s[i]) == LowerChar(t[i])
    ensures NormalizeElementName(s) == NormalizeElementName(t)
  {
    if s != [] {
      NormalizeIgnoresCase(s[1..], t[1..]);
      assert s == [s[0]] + s[1..] && t == [t[0]] + t[1..];
      NormalizeConcat([s[0]], s[1..]);
      NormalizeConcat([t[0]], t[1..]);
      assert s[0] == '-' <==> t[0] == '-';
    }
  }

  /** `Stack-Layout`, `StackLayout` and `stacklayout` all name the key `stacklayout`. */
  lemma StackLayoutSpellings()
    ensures NormalizeElementName("Stack-Layout") == "stacklayout"
    ensures NormalizeElementName("StackLayout") == "stacklayout"
    ensures NormalizeElementName("stacklayout") == "stacklayout"
  {
    StackLayoutKey();
    LowerStackLayoutKey();
    HyphenInStackLayout();
  }

  lemma StackLayoutKey()
    ensures NormalizeElementName("StackLayout") == "stacklayout"
  {
    KeyOfHyphenFreeName("StackLayout", "stacklayout");
  }

  lemma LowerStackLayoutKey()
    ensures NormalizeElementName("stacklayout") == "stacklayout"
  {
    KeyOfHyphenFreeName("stacklayout", "stacklayout");
  }

  lemma HyphenInStackLayout()
    ensures NormalizeElementName("Stack-Layout") == NormalizeElementName("StackLayout")
  {
    var stack, layout := "Stack", "Layout";
    assert stack + "-" + layout == "Stack-Layout";
    assert stack + layout == "StackLayout";
    NormalizeIgnoresHyphen(stack, layout);
  }

  /** The key of a name without hyphens is its letter-by-letter lower-case form. */
  lemma KeyOfHyphenFreeName(elementName: string, key: string)
    requires HasNoHyphen(elementName) && |key| == |elementName|
    requires forall i :: 0 <= i < |key| ==> key[i] == LowerChar(elementName[i])
    ensures NormalizeElementName(elementName) == key
  {
  }
}
