/**
 * The input validators of `utils/auth.go` and the substring search they use.
 * Lengths are Go byte lengths.
 */
module UtilsAuth {
  import GoStrings

  /** `sub` occurs in `s` starting at index `i`. */
  predicate OccursAt(s: string, sub: string, i: int) {
    0 <= i && i + |sub| <= |s| && s[i..i + |sub|] == sub
  }

  /** `sub` occurs somewhere in `s`. */
  predicate HasSubstring(s: string, sub: string) {
    exists i :: 0 <= i <= |s| - |sub| && OccursAt(s, sub, i)
  }

  /**
   * `contains`: scans the start positions `0 .. len(s)-len(sub)` in order and
   * stops at the first match.
   */
  method Contains(s: string, sub: string) returns (found: bool)
    ensures found <==> HasSubstring(s, sub)
  {
    var i := 0;
    while i <= |s| - |sub|
      invariant 0 <= i
      invariant |sub| <= |s| ==> i <= |s| - |sub| + 1
      invariant forall j :: 0 <= j < i ==> !OccursAt(s, sub, j)
      decreases |s| - |sub| + 1 - i
    {
      if s[i..i + |sub|] == sub {
        assert OccursAt(s, sub, i);
        return true;
      }
      i := i + 1;
    }
    return false;
  }

  /** A pattern longer than the text never occurs in it. */
  lemma LongerNeverContained(s: string, sub: string)
    requires |sub| > |s|
    ensures !HasSubstring(s, sub)
  {
  }

  /** The empty pattern occurs in every string, at index 0. */
  lemma EmptyAlwaysContained(s: string)
    ensures HasSubstring(s, "")
  {
    assert OccursAt(s, "", 0);
  }

  /** A one-byte pattern occurs exactly when that byte is present. */
  lemma SingleByteContained(s: string, c: char)
    ensures HasSubstring(s, [c]) <==> c in s
  {
    if c in s {
      var i :| 0 <= i < |s| && s[i] == c;
      assert OccursAt(s, [c], i);
    }
    if HasSubstring(s, [c]) {
      var i :| 0 <= i <= |s| - 1 && OccursAt(s, [c], i);
      assert s[i] == s[i..i + 1][0];
    }
  }

  /**
   * `ValidateEmail`: length in 6..254 and both an `@` and a `.` somewhere.
   * The positions of the two bytes are not checked: an address is accepted
   * exactly when its length is in range and it holds both bytes anywhere.
   */
  function ValidateEmail(email: string): (ok: bool)
    ensures ok <==> 5 < |email| <= 254 && '@' in email && '.' in email
  {
    SingleByteContained(email, '@');
    SingleByteContained(email, '.');
    |email| > 5 && |email| <= 254 && HasSubstring(email, "@") && HasSubstring(email, ".")
  }

  /** `ValidateUsername`: length in 3..50. */
  predicate ValidateUsername(username: string) {
    |username| >= 3 && |username| <= 50
  }

  /** `ValidatePassword`: length in 6..128. */
  predicate ValidatePassword(password: string) {
    |password| >= 6 && |password| <= 128
  }

  /** An address with nothing before the `@` is accepted. */
  lemma NoLocalPartAccepted()
    ensures ValidateEmail("@domain.com")
  {
    assert "@domain.com"[0] == '@';
    assert "@domain.com"[7] == '.';
  }

  /** A dot-less address is refused whatever its length. */
  lemma NoDotRefused(email: string)
    requires '.' !in email
    ensures !ValidateEmail(email)
  {
  }

  /**
   * `text` repeated `k` times: with a three-byte character such as U+4E2D
   * as `text`, a string of `k` characters and `3k` bytes.
   */
  function Repeat(text: string, k: nat): (r: string)
    ensures |r| == k * |text|
  {
    if k == 0 then [] else text + Repeat(text, k - 1)
  }

  /** The UTF-8 encoding of U+4E2D. */
  const WideChar: string := ['\U{00E4}', '\U{00B8}', '\U{00AD}']

  lemma {:induction false} WideRuneCount(k: nat)
    ensures GoStrings.RuneCount(Repeat(WideChar, k)) == k
  {
    if k > 0 {
      WideRuneCount(k - 1);
      var rest := Repeat(WideChar, k - 1);
      var r1, r2 := WideChar[1..] + rest, WideChar[2..] + rest;
      assert Repeat(WideChar, k)[0] == '\U{00E4}' && Repeat(WideChar, k)[1..] == r1;
      assert r1[0] == '\U{00B8}' && r1[1..] == r2;
      assert r2[0] == '\U{00AD}' && r2[1..] == rest;
      assert GoStrings.RuneCount(r2) == GoStrings.RuneCount(rest);
      assert GoStrings.RuneCount(r1) == GoStrings.RuneCount(rest);
    }
  }

  /** A run of the wide character starts with its lead byte and ends with its last byte. */
  lemma {:induction false} WideEnds(k: nat)
    requires k > 0
    ensures var r := Repeat(WideChar, k); |r| >= 3 && r[0] == '\U{00E4}' && r[|r| - 1] == '\U{00AD}'
  {
    var r := Repeat(WideChar, k);
    assert r == WideChar + Repeat(WideChar, k - 1);
    if k > 1 {
      WideEnds(k - 1);
    }
  }

  /** Trimming leaves a run of the wide character as it is. */
  lemma WideTrimmed(k: nat)
    requires k > 0
    ensures GoStrings.TrimSpace(Repeat(WideChar, k)) == Repeat(WideChar, k)
  {
    WideEnds(k);
    WideEndsTrimmed(Repeat(WideChar, k));
  }

  lemma WideEndsTrimmed(r: string)
    requires |r| >= 3 && r[0] == '\U{00E4}' && r[|r| - 1] == '\U{00AD}'
    ensures GoStrings.TrimSpace(r) == r
  {
    GoStrings.TrimSpaceKeepsEnds(r);
  }

  /**
   * The length checks count bytes, not characters: `k` three-byte
   * characters make a valid username only up to 16 of them and a valid
   * password only from 2 to 42, while the characters number `k`.
   */
  lemma LengthsCountBytes(k: nat)
    ensures GoStrings.RuneCount(Repeat(WideChar, k)) == k
    ensures ValidateUsername(Repeat(WideChar, k)) <==> 1 <= k <= 16
    ensures ValidatePassword(Repeat(WideChar, k)) <==> 2 <= k <= 42
  {
    WideRuneCount(k);
  }
}
