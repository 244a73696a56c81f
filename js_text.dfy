/**
 * The few JavaScript string operations the server relies on: truthiness of an
 * optional string, `s || null`, `toUpperCase` and `includes`.
 */
module JsText {
  import opened Wrappers

  /** JavaScript truthiness of an optional string: `undefined`, `null` and `""` are falsy. */
  predicate Truthy(s: Option<string>)
    ensures !Truthy(s) <==> s == None || s == Some("")
  {
    s.Some? && s.value != ""
  }

  /** `s || null`: a falsy string becomes `null`, a truthy one is kept as it is. */
  function OrNull(s: Option<string>): (r: Option<string>)
    ensures r.Some? <==> Truthy(s)
    ensures r.Some? ==> r == s && r.value != ""
  {
    if Truthy(s) then s else None
  }

  /** Upper-casing of one character; only the ASCII letters a-z change. */
  function UpperChar(c: char): char {
    if 'a' <= c <= 'z' then (c as int - 32) as char else c
  }

  /** Lower-casing of one character; only the ASCII letters A-Z change. */
  function LowerChar(c: char): char {
    if 'A' <= c <= 'Z' then (c as int + 32) as char else c
  }

  /** `s.toUpperCase()`, character by character. */
  function Upper(s: string): (u: string)
    ensures |u| == |s|
  {
    if s == [] then [] else [UpperChar(s[0])] + Upper(s[1..])
  }

  /** `s.toLowerCase()`, character by character. */
  function Lower(s: string): (l: string)
    ensures |l| == |s|
  {
    if s == [] then [] else [LowerChar(s[0])] + Lower(s[1..])
  }

  /** `toUpperCase` maps each character on its own: character `i` of the result is character `i` upper-cased. */
  lemma {:induction false} UpperAt(s: string, i: int)
    requires 0 <= i < |s|
    ensures Upper(s)[i] == UpperChar(s[i])
  {
    if i > 0 {
      UpperAt(s[1..], i - 1);
    }
  }

  /** Upper-casing twice is upper-casing once. */
  lemma {:induction false} UpperIdempotent(s: string)
    ensures Upper(Upper(s)) == Upper(s)
  {
    if s != [] {
      UpperIdempotent(s[1..]);
      assert Upper(s)[1..] == Upper(s[1..]);
    }
  }

  /** Upper-casing forgets whatever case the letters had. */
  lemma {:induction false} UpperOfLower(s: string)
    ensures Upper(Lower(s)) == Upper(s)
  {
    if s != [] {
      UpperOfLower(s[1..]);
      assert Lower(s)[1..] == Lower(s[1..]);
    }
  }

  /** `s` begins with `p`. */
  predicate StartsWith(s: string, p: string) {
    |p| <= |s| && s[..|p|] == p
  }

  /** `s.includes(p)`: `p` occurs in `s` as a contiguous substring. */
  predicate Includes(s: string, p: string)
    ensures p == [] ==> Includes(s, p)
    ensures Includes(s, p) ==> |p| <= |s|
    decreases |s|
  {
    StartsWith(s, p) || (s != [] && Includes(s[1..], p))
  }

  /** `p` occurs in `s` starting at offset `i`. */
  predicate OccursAt(s: string, p: string, i: int) {
    0 <= i && i + |p| <= |s| && s[i..i + |p|] == p
  }

  /** An occurrence past the first character is an occurrence in the tail. */
  lemma OccursInTail(s: string, p: string, i: int)
    requires s != [] && 0 < i
    ensures OccursAt(s, p, i) <==> OccursAt(s[1..], p, i - 1)
  {
  }

  /** `Includes` agrees with the definition by position: there is an offset where `p` occurs. */
  lemma {:induction false} IncludesIffOccurs(s: string, p: string)
    ensures Includes(s, p) <==> exists i :: OccursAt(s, p, i)
  {
    if StartsWith(s, p) {
      assert OccursAt(s, p, 0);
    } else if s != [] {
      IncludesIffOccurs(s[1..], p);
      if Includes(s[1..], p) {
        var i :| OccursAt(s[1..], p, i);
        OccursInTail(s, p, i + 1);
      } else {
        forall i | OccursAt(s, p, i)
          ensures OccursAt(s[1..], p, i - 1)
        {
          OccursInTail(s, p, i);
        }
      }
    }
  }

  /** An occurrence at a known offset makes `Includes` true. */
  lemma IncludesAt(s: string, p: string, i: int)
    requires OccursAt(s, p, i)
    ensures Includes(s, p)
  {
    IncludesIffOccurs(s, p);
  }

  /** A pattern that occurs at no offset is not included. */
  lemma NotIncludesNowhere(s: string, p: string)
    requires forall i :: !OccursAt(s, p, i)
    ensures !Includes(s, p)
  {
    IncludesIffOccurs(s, p);
  }

  /** A pattern with a character that `s` lacks does not occur in `s`. */
  lemma NotIncludesCharAbsent(s: string, p: string, j: int)
    requires 0 <= j < |p| && p[j] !in s
    ensures !Includes(s, p)
  {
  }

  /** A pattern longer than `s` does not occur in `s`. */
  lemma {:induction false} NotIncludesLonger(s: string, p: string)
    requires |s| < |p|
    ensures !Includes(s, p)
  {
    if s != [] {
      NotIncludesLonger(s[1..], p);
    }
  }

  /** A pattern as long as `s` occurs in `s` only if it is `s`. */
  lemma NotIncludesSameLength(s: string, p: string)
    requires |s| == |p| && s != p
    ensures !Includes(s, p)
  {
    if s != [] {
      NotIncludesLonger(s[1..], p);
    }
  }
}
