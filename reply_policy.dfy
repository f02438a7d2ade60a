/**
 The pure decisions the avatar component takes on a backend reply
 (src/components/Avatar.jsx:84-85): whether the reply is a string with
 non-blank content after JavaScript's `String.prototype.trim`, and whether
 it contains one of the two sensitive-content markers. Strings are sequences
 of Unicode scalar values; for the ASCII markers and the whitespace set used
 here this agrees with JavaScript's UTF-16 code units.
 */
module ReplyPolicy {

  /** Fallback entry text for a reply that is not a non-blank string. */
  const NotUnderstood := "Sorry, I didn't understand that."
  /** Fallback entry text for a failed backend request. */
  const BackendFailure := "There was an error communicating with the backend."
  /** The two literal markers whose presence clears the input buffer. */
  const AadhaarMarker := "Aadhaar card number"
  const OtpMarker := "OTP"

  /** The `response` field of the backend's body: a string, or anything else. */
  datatype Reply = NonString | Str(s: string)

  /** ECMAScript WhiteSpace and LineTerminator code points, the set `trim` strips. */
  predicate IsWhitespace(c: char)
  {
    c == '\t' || c == '\n' || c == '\U{000B}' || c == '\U{000C}' || c == '\r' ||
    c == ' ' || c == '\U{00A0}' || c == '\U{1680}' ||
    ('\U{2000}' <= c <= '\U{200A}') ||
    c == '\U{2028}' || c == '\U{2029}' || c == '\U{202F}' || c == '\U{205F}' ||
    c == '\U{3000}' || c == '\U{FEFF}'
  }

  predicate AllWhitespace(s: string)
  {
    forall i :: 0 <= i < |s| ==> IsWhitespace(s[i])
  }

  /** The text has at least one non-whitespace character. */
  predicate HasContent(s: string)
  {
    exists i :: 0 <= i < |s| && !IsWhitespace(s[i])
  }

  /** Drops leading whitespace, as the first half of `trim`. */
  function TrimStart(s: string): string
  {
    if s != [] && IsWhitespace(s[0]) then TrimStart(s[1..]) else s
  }

  /** Drops trailing whitespace, as the second half of `trim`. */
  function TrimEnd(s: string): string
  {
    if s != [] && IsWhitespace(s[|s| - 1]) then TrimEnd(s[..|s| - 1]) else s
  }

  /** JavaScript's `s.trim()`. */
  function Trim(s: string): string
  {
    TrimEnd(TrimStart(s))
  }

  /** What `TrimStart` keeps is a suffix of `s` that starts with a
      non-whitespace character, and everything it drops is whitespace. */
  lemma {:induction false} TrimStartKeepsSuffix(s: string)
    ensures |TrimStart(s)| <= |s| && TrimStart(s) == s[|s| - |TrimStart(s)|..]
    ensures AllWhitespace(s[..|s| - |TrimStart(s)|])
    ensures TrimStart(s) != [] ==> !IsWhitespace(TrimStart(s)[0])
  {
    if s != [] && IsWhitespace(s[0]) {
      TrimStartKeepsSuffix(s[1..]);
      var n := |s| - |TrimStart(s)|;
      assert s[..n] == [s[0]] + s[1..][..n - 1];
    }
  }

  /** What `TrimEnd` keeps is a prefix of `s` that ends with a non-whitespace
      character, and everything it drops is whitespace. */
  lemma {:induction false} TrimEndKeepsPrefix(s: string)
    ensures |TrimEnd(s)| <= |s| && TrimEnd(s) == s[..|TrimEnd(s)|]
    ensures AllWhitespace(s[|TrimEnd(s)|..])
    ensures TrimEnd(s) != [] ==> !IsWhitespace(TrimEnd(s)[|TrimEnd(s)| - 1])
  {
    if s != [] && IsWhitespace(s[|s| - 1]) {
      TrimEndKeepsPrefix(s[..|s| - 1]);
      var n := |TrimEnd(s)|;
      assert s[n..] == s[..|s| - 1][n..] + [s[|s| - 1]];
    }
  }

  /** `trim` gives the empty string exactly when `s` is all whitespace, and
      otherwise a string that starts and ends with a non-whitespace
      character. */
  lemma TrimEmptyIffAllWhitespace(s: string)
    ensures Trim(s) == [] <==> AllWhitespace(s)
    ensures Trim(s) != [] ==> !IsWhitespace(Trim(s)[0]) && !IsWhitespace(Trim(s)[|Trim(s)| - 1])
  {
    var t := TrimStart(s);
    TrimStartKeepsSuffix(s);
    TrimEndKeepsPrefix(t);
    if Trim(s) == [] {
      assert t[|Trim(s)|..] == t;
      assert t == [];
      assert s == s[..|s| - |t|];
    } else {
      var r := Trim(s);
      assert r[0] == t[0];
      var n := |s| - |t|;
      assert s[n] == t[0];
    }
  }

  /** `pat` occurs in `s` starting at position `i`. */
  predicate OccursAt(s: string, pat: string, i: nat)
  {
    i + |pat| <= |s| && s[i..i + |pat|] == pat
  }

  /** JavaScript's `s.includes(pat)`, scanning left to right. */
  function Includes(s: string, pat: string): bool
    decreases |s|
  {
    if |pat| > |s| then false
    else if s[..|pat|] == pat then true
    else Includes(s[1..], pat)
  }

  /** The scan finds `pat` exactly when `pat` occurs somewhere in `s`. */
  lemma {:induction false} IncludesIff(s: string, pat: string)
    ensures Includes(s, pat) <==> exists i: nat :: OccursAt(s, pat, i)
    decreases |s|
  {
    if |pat| > |s| {
      assert forall i: nat :: !OccursAt(s, pat, i);
    } else if s[..|pat|] == pat {
      assert OccursAt(s, pat, 0);
    } else {
      IncludesIff(s[1..], pat);
      assert !OccursAt(s, pat, 0);
      forall i: nat | OccursAt(s, pat, i) ensures OccursAt(s[1..], pat, i - 1) {
        assert s[1..][i - 1..i - 1 + |pat|] == s[i..i + |pat|];
      }
      forall j: nat | OccursAt(s[1..], pat, j) ensures OccursAt(s, pat, j + 1) {
        assert s[1..][j..j + |pat|] == s[j + 1..j + 1 + |pat|];
      }
    }
  }

  /** The check at :84: the reply is a string and `reply.trim() !== ''`,
      that is, the string has at least one non-whitespace character. */
  function IsValidReply(reply: Reply): (b: bool)
    ensures b <==> reply.Str? && HasContent(reply.s)
  {
    match reply
    case NonString => false
    case Str(s) => TrimEmptyIffAllWhitespace(s); Trim(s) != ""
  }

  /** The check at :85: the text contains "Aadhaar card number" or "OTP". */
  function IsSensitive(text: string): (b: bool)
    ensures b <==> (exists i: nat :: OccursAt(text, AadhaarMarker, i)) ||
                   (exists i: nat :: OccursAt(text, OtpMarker, i))
  {
    IncludesIff(text, AadhaarMarker);
    IncludesIff(text, OtpMarker);
    Includes(text, AadhaarMarker) || Includes(text, OtpMarker)
  }

  /** Any text with "OTP" inside it is sensitive, wherever the marker stands. */
  lemma OtpAnywhereIsSensitive(before: string, after: string)
    ensures IsSensitive(before + OtpMarker + after)
  {
    var t := before + OtpMarker + after;
    assert t[|before|..|before| + |OtpMarker|] == OtpMarker;
    assert OccursAt(t, OtpMarker, |before|);
  }

  /** Likewise for the Aadhaar marker. */
  lemma AadhaarAnywhereIsSensitive(before: string, after: string)
    ensures IsSensitive(before + AadhaarMarker + after)
  {
    var t := before + AadhaarMarker + after;
    assert t[|before|..|before| + |AadhaarMarker|] == AadhaarMarker;
    assert OccursAt(t, AadhaarMarker, |before|);
  }

  /** Both fallback texts have content, like every reply that passes the
      validity check. */
  lemma FallbacksHaveContent()
    ensures HasContent(NotUnderstood) && HasContent(BackendFailure)
  {
    assert !IsWhitespace(NotUnderstood[|NotUnderstood| - 1]);
    assert !IsWhitespace(BackendFailure[|BackendFailure| - 1]);
  }
}
