/**
 * The name sanitiser both dialogs apply on every change of the text field:
 * cut the raw text to 255 characters, then delete every character a
 * SharePoint folder name may not contain.
 */
module NameSanitizer {
  import opened JsString

  /** The dialogs' `_characterLimit`. */
  const CharacterLimit: nat := 255

  /** The characters the pattern `[\"\*\:\<\>\?\/\\\\\|]` matches: `" * : < > ? / \ |`. */
  predicate IsReserved(c: char) {
    c == '"' || c == '*' || c == ':' || c == '<' || c == '>' || c == '?'
    || c == '/' || c == '\\' || c == '|'
  }

  /** No reserved character occurs in `s`. */
  predicate IsClean(s: string) {
    forall i :: 0 <= i < |s| ==> !IsReserved(s[i])
  }

  /** `s.replace(re, '')` with the global flag: every reserved character removed. */
  function StripReserved(s: string): (r: string)
    ensures |r| <= |s|
    ensures IsClean(r)
  {
    if s == [] then []
    else (if IsReserved(s[0]) then [] else [s[0]]) + StripReserved(s[1..])
  }

  /** The name a dialog keeps for the raw text `raw`. */
  function Sanitize(raw: string): (r: string)
    ensures |r| <= CharacterLimit && |r| <= |raw|
    ensures IsClean(r)
  {
    StripReserved(Substring(raw, CharacterLimit))
  }

  /** The Create button's validity rule: the RAW text is non-empty. */
  predicate IsValidInput(raw: string) {
    |raw| >= 1
  }

  /** `a` can be obtained from `b` by deleting characters, keeping the order of the rest. */
  predicate IsSubsequence(a: string, b: string)
    decreases |b|
  {
    if a == [] then true
    else if b == [] then false
    else if a[0] == b[0] then IsSubsequence(a[1..], b[1..])
    else IsSubsequence(a, b[1..])
  }

  /** Stripping keeps the surviving characters in their original order. */
  lemma {:induction false} StripReservedIsSubsequence(s: string)
    ensures IsSubsequence(StripReserved(s), s)
  {
    if s != [] {
      StripReservedIsSubsequence(s[1..]);
      var rest := StripReserved(s[1..]);
      if IsReserved(s[0]) {
        assert StripReserved(s) == rest;
        assert rest != [] ==> rest[0] != s[0];
      } else {
        assert StripReserved(s) == [s[0]] + rest;
      }
    }
  }

  /**
   * Stripping removes every occurrence of a reserved character and keeps every
   * occurrence of any other character.
   */
  lemma {:induction false} StripReservedCount(s: string, c: char)
    ensures multiset(StripReserved(s))[c] == if IsReserved(c) then 0 else multiset(s)[c]
  {
    if s != [] {
      StripReservedCount(s[1..], c);
      assert s == [s[0]] + s[1..];
      assert multiset(s) == multiset([s[0]]) + multiset(s[1..]);
      var head := if IsReserved(s[0]) then [] else [s[0]];
      assert multiset(StripReserved(s)) == multiset(head) + multiset(StripReserved(s[1..]));
    }
  }

  /** A name without reserved characters is left as it is. */
  lemma {:induction false} StripReservedOfClean(s: string)
    requires IsClean(s)
    ensures StripReserved(s) == s
  {
    if s != [] {
      StripReservedOfClean(s[1..]);
      assert s == [s[0]] + s[1..];
    }
  }

  /**
   * The sanitised name is exactly the non-reserved characters of the first
   * 255 raw characters, in their original order.
   */
  lemma SanitizeKeepsOrder(raw: string)
    ensures IsSubsequence(Sanitize(raw), Substring(raw, CharacterLimit))
    ensures forall c :: !IsReserved(c) ==>
      multiset(Sanitize(raw))[c] == multiset(Substring(raw, CharacterLimit))[c]
  {
    StripReservedIsSubsequence(Substring(raw, CharacterLimit));
    forall c | !IsReserved(c)
      ensures multiset(Sanitize(raw))[c] == multiset(Substring(raw, CharacterLimit))[c]
    {
      StripReservedCount(Substring(raw, CharacterLimit), c);
    }
  }

  /**
   * Sanitising the sanitised name changes nothing, so feeding the field's
   * value back through the change handler keeps it.
   */
  lemma SanitizeIdempotent(raw: string)
    ensures Sanitize(Sanitize(raw)) == Sanitize(raw)
  {
    StripReservedOfClean(Sanitize(raw));
  }

  /** A short name without reserved characters is kept verbatim. */
  lemma SanitizeOfCleanName(raw: string)
    requires |raw| <= CharacterLimit && IsClean(raw)
    ensures Sanitize(raw) == raw
  {
    StripReservedOfClean(raw);
  }

  /**
   * Validity looks at the raw text only: `***` is valid although its
   * sanitised name is empty, and the empty text is invalid.
   */
  lemma ValidityIgnoresSanitisedName()
    ensures IsValidInput("***") && Sanitize("***") == ""
    ensures !IsValidInput("") && Sanitize("") == ""
  {
    assert StripReserved("***") == StripReserved("**");
    assert StripReserved("**") == StripReserved("*");
  }
}
