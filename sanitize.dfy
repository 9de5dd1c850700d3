/** sanitizeIdentifier (writer/writer.go:226-238): makes a display name usable
    as a Terraform resource identifier. The first regular expression, the Go
    interpreted string "[\\./, ]", is the character class of `.`, `/`, `,` and
    space; every match becomes `_`. The second, the raw string `[\\(\\)\\?]`,
    is the class of backslash, `(`, `)` and `?`; every match is deleted. Both
    classes consist of single characters, so the regular expressions are
    modelled as maps over the characters. */
module Sanitize {
  /** The characters the first regular expression turns into `_`. */
  predicate IsUnderscored(c: char)
  {
    c == '.' || c == '/' || c == ',' || c == ' '
  }

  /** The characters the second regular expression deletes. */
  predicate IsStripped(c: char)
  {
    c == '\\' || c == '(' || c == ')' || c == '?'
  }

  predicate IsForbidden(c: char)
  {
    IsUnderscored(c) || IsStripped(c)
  }

  /** A string with none of the characters either expression rewrites. */
  predicate IsClean(s: string)
  {
    forall i | 0 <= i < |s| :: !IsForbidden(s[i])
  }

  /** The first replacement (writer/writer.go:230-231). */
  function ReplaceUnderscored(s: string): string
  {
    if s == [] then []
    else [if IsUnderscored(s[0]) then '_' else s[0]] + ReplaceUnderscored(s[1..])
  }

  /** The first replacement keeps the length and rewrites each character of
      the first class, and only those, to `_`. */
  lemma {:induction false} ReplaceUnderscoredPointwise(s: string)
    ensures |ReplaceUnderscored(s)| == |s|
    ensures forall i | 0 <= i < |s| ::
              ReplaceUnderscored(s)[i] == if IsUnderscored(s[i]) then '_' else s[i]
  {
    if s != [] {
      ReplaceUnderscoredPointwise(s[1..]);
    }
  }

  /** The second replacement (writer/writer.go:234-235). */
  function StripInvalid(s: string): string
  {
    if s == [] then []
    else (if IsStripped(s[0]) then [] else [s[0]]) + StripInvalid(s[1..])
  }

  /** The second replacement deletes exactly the characters of the second
      class. */
  lemma {:induction false} StripInvalidMembers(s: string)
    ensures |StripInvalid(s)| <= |s|
    ensures forall c :: c in StripInvalid(s) <==> c in s && !IsStripped(c)
  {
    if s != [] {
      StripInvalidMembers(s[1..]);
      assert s == [s[0]] + s[1..];
    }
  }

  /** sanitizeIdentifier: the second replacement applied to the result of the
      first. The result contains no character of either class and is never
      longer than the input. */
  function SanitizeIdentifier(token: string): (r: string)
    ensures IsClean(r)
    ensures |r| <= |token|
  {
    var underscored := ReplaceUnderscored(token);
    ReplaceUnderscoredPointwise(token);
    StripInvalidMembers(underscored);
    var r := StripInvalid(underscored);
    assert forall i | 0 <= i < |r| :: r[i] in underscored;
    r
  }

  /** What sanitizeIdentifier does to one character. */
  function SanitizeChar(c: char): string
  {
    if IsUnderscored(c) then "_" else if IsStripped(c) then "" else [c]
  }

  /** An independent, character-by-character definition of sanitizeIdentifier. */
  function SanitizeEach(s: string): string
  {
    if s == [] then "" else SanitizeChar(s[0]) + SanitizeEach(s[1..])
  }

  lemma {:induction false} SanitizeEachAppend(a: string, b: string)
    ensures SanitizeEach(a + b) == SanitizeEach(a) + SanitizeEach(b)
  {
    if a != [] {
      assert (a + b)[1..] == a[1..] + b;
      SanitizeEachAppend(a[1..], b);
    } else {
      assert a + b == b;
    }
  }

  /** Each of `.` `/` `,` and space becomes exactly one `_`, each of `(` `)`
      `?` and backslash is dropped, and every other character is kept, in
      order. */
  lemma {:induction false} SanitizeIsCharwise(s: string)
    ensures SanitizeIdentifier(s) == SanitizeEach(s)
  {
    if s != [] {
      var c := if IsUnderscored(s[0]) then '_' else s[0];
      assert ([c] + ReplaceUnderscored(s[1..]))[1..] == ReplaceUnderscored(s[1..]);
      SanitizeIsCharwise(s[1..]);
    }
  }

  /** Sanitizing a concatenation sanitizes each part. */
  lemma SanitizeAppend(a: string, b: string)
    ensures SanitizeIdentifier(a + b) == SanitizeIdentifier(a) + SanitizeIdentifier(b)
  {
    SanitizeIsCharwise(a + b);
    SanitizeIsCharwise(a);
    SanitizeIsCharwise(b);
    SanitizeEachAppend(a, b);
  }

  /** A string with no character of either class is left as it is. */
  lemma {:induction false} SanitizeKeepsClean(s: string)
    requires IsClean(s)
    ensures SanitizeIdentifier(s) == s
  {
    SanitizeIsCharwise(s);
    SanitizeEachKeepsClean(s);
  }

  lemma {:induction false} SanitizeEachKeepsClean(s: string)
    requires IsClean(s)
    ensures SanitizeEach(s) == s
  {
    if s != [] {
      assert !IsForbidden(s[0]);
      assert IsClean(s[1..]) by {
        forall i | 0 <= i < |s[1..]| ensures !IsForbidden(s[1..][i]) {
          assert s[1..][i] == s[i + 1];
        }
      }
      SanitizeEachKeepsClean(s[1..]);
    }
  }

  /** Applying sanitizeIdentifier twice gives the same result as once. */
  lemma SanitizeIdempotent(s: string)
    ensures SanitizeIdentifier(SanitizeIdentifier(s)) == SanitizeIdentifier(s)
  {
    SanitizeKeepsClean(SanitizeIdentifier(s));
  }

  /** The number of characters of `s` that the second expression deletes. */
  function StrippedCount(s: string): nat
  {
    if s == [] then 0 else (if IsStripped(s[0]) then 1 else 0) + StrippedCount(s[1..])
  }

  /** The output is exactly as long as the input minus the deleted characters. */
  lemma {:induction false} SanitizeLength(s: string)
    ensures |SanitizeIdentifier(s)| == |s| - StrippedCount(s)
  {
    SanitizeIsCharwise(s);
    SanitizeEachLength(s);
  }

  lemma {:induction false} SanitizeEachLength(s: string)
    ensures |SanitizeEach(s)| == |s| - StrippedCount(s)
  {
    if s != [] {
      SanitizeEachLength(s[1..]);
    }
  }
}
