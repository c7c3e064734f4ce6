/**
 * The parts of Go's `strings` package that the backend relies on. A Go
 * string is a sequence of bytes; here each `char` stands for one byte, so
 * `|s|` is Go's `len(s)`.
 */
module GoStrings {

  /** The ASCII white-space bytes that `strings.TrimSpace` removes. */
  predicate IsSpace(c: char) {
    c == ' ' || c == '\t' || c == '\n' || c == '\r' || c == '\U{000B}' || c == '\U{000C}'
  }

  /** Every byte of `s[lo..hi]` is white space. */
  predicate AllSpace(s: string, lo: int, hi: int) {
    forall i :: 0 <= lo <= i < hi <= |s| ==> IsSpace(s[i])
  }

  /** Removes leading white space. */
  function TrimLeft(s: string): (r: string)
    ensures |r| <= |s| && r == s[|s| - |r|..]
    ensures r == [] || !IsSpace(r[0])
    ensures forall i :: 0 <= i < |s| - |r| ==> IsSpace(s[i])
  {
    if s != [] && IsSpace(s[0]) then TrimLeft(s[1..]) else s
  }

  /** Removes trailing white space. */
  function TrimRight(s: string): (r: string)
    ensures |r| <= |s| && r == s[..|r|]
    ensures r == [] || !IsSpace(r[|r| - 1])
    ensures forall i :: |r| <= i < |s| ==> IsSpace(s[i])
  {
    if s != [] && IsSpace(s[|s| - 1]) then TrimRight(s[..|s| - 1]) else s
  }

  /** `strings.TrimSpace`: the string without leading and trailing white space. */
  function TrimSpace(s: string): (r: string)
    ensures |r| <= |TrimLeft(s)| <= |s|
    ensures r == s[|s| - |TrimLeft(s)|..|s| - |TrimLeft(s)| + |r|]
    ensures r == [] || (!IsSpace(r[0]) && !IsSpace(r[|r| - 1]))
    ensures AllSpace(s, 0, |s| - |TrimLeft(s)|)
    ensures AllSpace(s, |s| - |TrimLeft(s)| + |r|, |s|)
  {
    var l := TrimLeft(s);
    var r := TrimRight(l);
    TrimParts(s, l, r);
    r
  }

  /**
   * The prefix `r` that `TrimRight` keeps of the suffix `l` that `TrimLeft`
   * keeps of `s` is a slice of `s`, and all around it is white space.
   */
  lemma TrimParts(s: string, l: string, r: string)
    requires |l| <= |s| && l == s[|s| - |l|..]
    requires forall i :: 0 <= i < |s| - |l| ==> IsSpace(s[i])
    requires |r| <= |l| && r == l[..|r|]
    requires forall j :: |r| <= j < |l| ==> IsSpace(l[j])
    ensures r == s[|s| - |l|..|s| - |l| + |r|]
    ensures r != [] ==> r[0] == l[0]
    ensures AllSpace(s, 0, |s| - |l|)
    ensures AllSpace(s, |s| - |l| + |r|, |s|)
  {
    forall i | |s| - |l| + |r| <= i < |s| ensures IsSpace(s[i]) {
      assert s[i] == l[i - (|s| - |l|)];
    }
  }

  /** Text that neither starts nor ends with white space is left as it is. */
  lemma TrimSpaceKeepsEnds(s: string)
    requires s != [] && !IsSpace(s[0]) && !IsSpace(s[|s| - 1])
    ensures TrimSpace(s) == s
  {
    assert TrimLeft(s) == s;
    assert TrimRight(s) == s;
  }

  /** Trimming yields the empty string exactly when every byte is white space. */
  lemma TrimSpaceEmptyIff(s: string)
    ensures TrimSpace(s) == [] <==> forall i :: 0 <= i < |s| ==> IsSpace(s[i])
  {
    var l := TrimLeft(s);
    if l != [] {
      assert !IsSpace(l[0]) && l[0] == s[|s| - |l|];
    }
  }

  /** Trimming twice is trimming once. */
  lemma TrimSpaceIdempotent(s: string)
    ensures TrimSpace(TrimSpace(s)) == TrimSpace(s)
  {
    var t := TrimSpace(s);
    assert TrimLeft(t) == t;
    assert TrimRight(t) == t;
  }

  /** ASCII lower-casing of one byte. */
  function LowerByte(c: char): (r: char)
    ensures 'A' <= c <= 'Z' ==> r as int == c as int + 32
    ensures !('A' <= c <= 'Z') ==> r == c
  {
    if 'A' <= c <= 'Z' then (c as int + 32) as char else c
  }

  /** `strings.ToLower` on ASCII text: every upper-case letter lowered, all else kept. */
  function ToLower(s: string): (r: string)
    ensures |r| == |s|
    ensures forall i :: 0 <= i < |s| ==> r[i] == LowerByte(s[i])
  {
    if s == [] then [] else [LowerByte(s[0])] + ToLower(s[1..])
  }

  /** Every byte is already lower-case. */
  predicate IsLower(s: string) {
    forall i :: 0 <= i < |s| ==> LowerByte(s[i]) == s[i]
  }

  /** Lower-casing yields lower-case text, which lower-casing leaves as it is. */
  lemma ToLowerIdempotent(s: string)
    ensures IsLower(ToLower(s))
    ensures ToLower(ToLower(s)) == ToLower(s)
  {
  }

  lemma LowerUnchanged(s: string)
    requires IsLower(s)
    ensures ToLower(s) == s
  {
  }

  /** Trimming lower-case text leaves lower-case text. */
  lemma TrimSpaceKeepsLower(s: string)
    requires IsLower(s)
    ensures IsLower(TrimSpace(s))
  {
    var start := |s| - |TrimLeft(s)|;
    SliceKeepsLower(s, start, start + |TrimSpace(s)|);
  }

  /** Every slice of lower-case text is lower-case. */
  lemma SliceKeepsLower(s: string, lo: int, hi: int)
    requires IsLower(s) && 0 <= lo <= hi <= |s|
    ensures IsLower(s[lo..hi])
  {
    forall i | 0 <= i < hi - lo ensures LowerByte(s[lo..hi][i]) == s[lo..hi][i] {
      assert s[lo..hi][i] == s[lo + i];
    }
  }

  /** A UTF-8 continuation byte: it extends the character an earlier byte started. */
  predicate IsContinuation(c: char) {
    0x80 <= c as int < 0xC0
  }

  /**
   * `utf8.RuneCountInString` on well-formed UTF-8, the length the
   * validator's `min`/`max` tags compare for a string: every byte that is
   * not a continuation byte starts one character.
   */
  function RuneCount(s: string): (n: nat)
    ensures n <= |s|
    ensures (forall i :: 0 <= i < |s| ==> s[i] as int < 0x80) ==> n == |s|
  {
    if s == [] then 0 else (if IsContinuation(s[0]) then 0 else 1) + RuneCount(s[1..])
  }

  /** `strings.HasPrefix`. */
  predicate HasPrefix(s: string, prefix: string) {
    |prefix| <= |s| && s[..|prefix|] == prefix
  }

  /** `strings.TrimPrefix`: the prefix removed once when present, else the input. */
  function TrimPrefix(s: string, prefix: string): (r: string)
    ensures HasPrefix(s, prefix) ==> prefix + r == s
    ensures !HasPrefix(s, prefix) ==> r == s
  {
    if HasPrefix(s, prefix) then s[|prefix|..] else s
  }

  /** `strings.Join`: the elements with `sep` between consecutive ones. */
  function Join(parts: seq<string>, sep: string): (r: string)
    ensures |parts| == 1 ==> r == parts[0]
    ensures parts == [] ==> r == []
  {
    if parts == [] then []
    else if |parts| == 1 then parts[0]
    else parts[0] + sep + Join(parts[1..], sep)
  }

  /**
   * Joining two non-empty lists of parts one after the other puts exactly
   * one separator between them, so `sep` stands between every two
   * consecutive parts.
   */
  lemma {:induction false} JoinConcat(a: seq<string>, b: seq<string>, sep: string)
    requires a != [] && b != []
    ensures Join(a + b, sep) == Join(a, sep) + sep + Join(b, sep)
  {
    if |a| == 1 {
      assert (a + b)[1..] == b;
    } else {
      assert (a + b)[0] == a[0];
      assert (a + b)[1..] == a[1..] + b;
      JoinConcat(a[1..], b, sep);
    }
  }

  /** `strings.Count(s, string([c]))`: the number of occurrences of byte `c`. */
  function CountByte(s: string, c: char): (n: nat)
    ensures n <= |s|
    ensures n == 0 <==> forall i :: 0 <= i < |s| ==> s[i] != c
    ensures n == multiset(s)[c]
  {
    if s == [] then 0
    else
      assert s == [s[0]] + s[1..];
      (if s[0] == c then 1 else 0) + CountByte(s[1..], c)
  }
}
