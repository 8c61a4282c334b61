/** The two filename sanitizers the export scripts and the PDF processor define.
    Both are a chain of `str.replace` calls followed by the slice `[:max_len]`. */
module Sanitize {

  /** The default `max_len` of the export scripts. */
  const ExportMaxLen: nat := 80
  /** The default `max_len` of the PDF processor. */
  const PdfMaxLen: nat := 100

  /** `s.replace(from, to)` for one-character `from` and `to`. */
  function Replace(s: string, from: char, to: char): string
  {
    if s == [] then [] else [if s[0] == from then to else s[0]] + Replace(s[1..], from, to)
  }

  /** `s.replace(c, "")`. */
  function Delete(s: string, c: char): string
  {
    if s == [] then [] else (if s[0] == c then [] else [s[0]]) + Delete(s[1..], c)
  }

  /** `s[:maxLen]` for a non-negative bound. */
  function Truncate(s: string, maxLen: nat): string
  {
    if |s| <= maxLen then s else s[..maxLen]
  }

  /** The replacement chain `.replace("/", "_").replace(" ", "_").replace(":", "-")`. */
  function ReplaceSeparators(s: string): string
  {
    Replace(Replace(Replace(s, '/', '_'), ' ', '_'), ':', '-')
  }

  /** The map-only sanitizer. */
  function SanitizeMapOnly(name: string, maxLen: nat): string
  {
    Truncate(ReplaceSeparators(name), maxLen)
  }

  /** The map-and-delete sanitizer: the same chain, then `.replace("(", "").replace(")", "")`. */
  function SanitizeStripParens(name: string, maxLen: nat): string
  {
    Truncate(Delete(Delete(ReplaceSeparators(name), '('), ')'), maxLen)
  }

  // Reference definitions: one character at a time.

  /** What the replacement chain does to a single character. */
  function MapChar(c: char): char
  {
    if c == '/' || c == ' ' then '_' else if c == ':' then '-' else c
  }

  function MapChars(s: string): (r: string)
    ensures |r| == |s|
  {
    seq(|s|, i requires 0 <= i < |s| => MapChar(s[i]))
  }

  predicate IsParen(c: char)
  {
    c == '(' || c == ')'
  }

  /** `s` with every parenthesis removed. */
  function DropParens(s: string): string
  {
    if s == [] then [] else (if IsParen(s[0]) then [] else [s[0]]) + DropParens(s[1..])
  }

  function ParenCount(s: string): nat
  {
    if s == [] then 0 else (if IsParen(s[0]) then 1 else 0) + ParenCount(s[1..])
  }

  function Min(a: int, b: int): int
  {
    if a <= b then a else b
  }

  // The replacement chain is the character map.

  lemma {:induction false} ReplaceAt(s: string, from: char, to: char)
    ensures |Replace(s, from, to)| == |s|
    ensures forall i :: 0 <= i < |s| ==> Replace(s, from, to)[i] == if s[i] == from then to else s[i]
  {
    if s != [] {
      ReplaceAt(s[1..], from, to);
    }
  }

  lemma ReplaceSeparatorsIsMap(s: string)
    ensures ReplaceSeparators(s) == MapChars(s)
  {
    ReplaceAt(s, '/', '_');
    ReplaceAt(Replace(s, '/', '_'), ' ', '_');
    ReplaceAt(Replace(Replace(s, '/', '_'), ' ', '_'), ':', '-');
  }

  lemma {:induction false} DeleteParensIsDrop(s: string)
    ensures Delete(Delete(s, '('), ')') == DropParens(s)
  {
    if s != [] {
      DeleteParensIsDrop(s[1..]);
      if s[0] != '(' {
        var t := Delete(s, '(');
        assert t == [s[0]] + Delete(s[1..], '(');
        assert t[1..] == Delete(s[1..], '(');
      } else {
        assert Delete(s, '(') == Delete(s[1..], '(');
      }
    }
  }

  /** The map-and-delete sanitizer is `Truncate` after `DropParens` after `MapChars`. */
  lemma StripParensIsFilterOfMap(name: string, maxLen: nat)
    ensures SanitizeStripParens(name, maxLen) == Truncate(DropParens(MapChars(name)), maxLen)
  {
    ReplaceSeparatorsIsMap(name);
    DeleteParensIsDrop(MapChars(name));
  }

  /** Map-only: the length is `min(|name|, maxLen)`; each `/` and space becomes `_`,
      each `:` becomes `-`, and every other character (parentheses included) is kept. */
  lemma MapOnlyCharwise(name: string, maxLen: nat)
    ensures |SanitizeMapOnly(name, maxLen)| == Min(|name|, maxLen)
    ensures forall i :: 0 <= i < |SanitizeMapOnly(name, maxLen)| ==>
      SanitizeMapOnly(name, maxLen)[i] ==
        (if name[i] == '/' || name[i] == ' ' then '_' else if name[i] == ':' then '-' else name[i])
  {
    ReplaceSeparatorsIsMap(name);
  }

  /** Map-only: the result holds no `/`, no space and no `:`. */
  lemma MapOnlyClean(name: string, maxLen: nat)
    ensures forall i :: 0 <= i < |SanitizeMapOnly(name, maxLen)| ==>
      SanitizeMapOnly(name, maxLen)[i] !in {'/', ' ', ':'}
  {
    MapOnlyCharwise(name, maxLen);
  }

  /** Map-only: sanitizing twice with the same bound is sanitizing once. */
  lemma MapOnlyIdempotent(name: string, maxLen: nat)
    ensures SanitizeMapOnly(SanitizeMapOnly(name, maxLen), maxLen) == SanitizeMapOnly(name, maxLen)
  {
    var once := SanitizeMapOnly(name, maxLen);
    MapOnlyCharwise(name, maxLen);
    MapOnlyCharwise(once, maxLen);
  }

  lemma {:induction false} DropParensFacts(s: string)
    ensures |DropParens(s)| == |s| - ParenCount(s)
    ensures forall i :: 0 <= i < |DropParens(s)| ==> !IsParen(DropParens(s)[i])
    ensures forall c :: c in DropParens(s) ==> c in s
  {
    if s != [] {
      DropParensFacts(s[1..]);
      var head := if IsParen(s[0]) then [] else [s[0]];
      assert DropParens(s) == head + DropParens(s[1..]);
    }
  }

  lemma {:induction false} ParenCountMapped(s: string)
    ensures ParenCount(MapChars(s)) == ParenCount(s)
  {
    if s != [] {
      assert MapChars(s)[1..] == MapChars(s[1..]);
      ParenCountMapped(s[1..]);
    }
  }

  lemma {:induction false} DropParensIdentity(s: string)
    requires forall i :: 0 <= i < |s| ==> !IsParen(s[i])
    ensures DropParens(s) == s
  {
    if s != [] {
      DropParensIdentity(s[1..]);
    }
  }

  /** Map-and-delete: the length is `min(|name| - number of parentheses, maxLen)`. */
  lemma StripParensLength(name: string, maxLen: nat)
    ensures |SanitizeStripParens(name, maxLen)| == Min(|name| - ParenCount(name), maxLen)
  {
    StripParensIsFilterOfMap(name, maxLen);
    DropParensFacts(MapChars(name));
    ParenCountMapped(name);
  }

  /** Map-and-delete: the result holds none of `/`, space, `:`, `(`, `)`. */
  lemma StripParensClean(name: string, maxLen: nat)
    ensures forall i :: 0 <= i < |SanitizeStripParens(name, maxLen)| ==>
      SanitizeStripParens(name, maxLen)[i] !in {'/', ' ', ':', '(', ')'}
  {
    var r := SanitizeStripParens(name, maxLen);
    StripParensIsFilterOfMap(name, maxLen);
    var d := DropParens(MapChars(name));
    DropParensFacts(MapChars(name));
    forall i | 0 <= i < |r| ensures r[i] !in {'/', ' ', ':', '(', ')'} {
      assert r[i] == d[i];
      assert d[i] in MapChars(name);
    }
  }

  /** Map-and-delete: sanitizing twice with the same bound is sanitizing once. */
  lemma StripParensIdempotent(name: string, maxLen: nat)
    ensures SanitizeStripParens(SanitizeStripParens(name, maxLen), maxLen) == SanitizeStripParens(name, maxLen)
  {
    var once := SanitizeStripParens(name, maxLen);
    StripParensClean(name, maxLen);
    StripParensLength(name, maxLen);
    StripParensIsFilterOfMap(once, maxLen);
    assert MapChars(once) == once;
    DropParensIdentity(once);
  }
}
