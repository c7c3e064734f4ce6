/**
 * The string helpers of `utils/common.go`: HTML escaping, truncation, a
 * loose UUID check and error formatting.
 */
module UtilsCommon {
  import opened Base
  import GoStrings

  /** The five bytes `SanitizeString` rewrites. */
  predicate IsSpecial(c: char) {
    c == '<' || c == '>' || c == '&' || c == '"' || c == '\''
  }

  /** The replacement of one byte: its entity for the five special bytes, itself otherwise. */
  function Escape(c: char): (r: string)
    ensures |r| >= 1
    ensures !IsSpecial(c) <==> r == [c]
    ensures forall i :: 0 <= i < |r| ==> r[i] != '<' && r[i] != '>' && r[i] != '"' && r[i] != '\''
    ensures c == '<' ==> r == "&lt;"
    ensures c == '>' ==> r == "&gt;"
    ensures c == '&' ==> r == "&amp;"
    ensures c == '"' ==> r == "&quot;"
    ensures c == '\'' ==> r == "&#39;"
  {
    match c
    case '<' => "&lt;"
    case '>' => "&gt;"
    case '&' => "&amp;"
    case '"' => "&quot;"
    case '\'' => "&#39;"
    case _ => [c]
  }

  /**
   * `SanitizeString`: one left-to-right pass replacing each byte by its
   * escape; the `&` of an inserted entity is never escaped again.
   */
  function SanitizeString(input: string): (r: string)
  {
    if input == [] then [] else Escape(input[0]) + SanitizeString(input[1..])
  }

  /** Escaping works byte by byte, so it distributes over concatenation. */
  lemma {:induction false} SanitizeConcat(a: string, b: string)
    ensures SanitizeString(a + b) == SanitizeString(a) + SanitizeString(b)
  {
    if a == [] {
      assert a + b == b;
    } else {
      assert (a + b)[0] == a[0];
      assert (a + b)[1..] == a[1..] + b;
      SanitizeConcat(a[1..], b);
    }
  }

  /** The output holds none of `<`, `>`, `"` or `'`. */
  lemma {:induction false} SanitizeRemovesMarkup(input: string)
    ensures forall i :: 0 <= i < |SanitizeString(input)| ==>
      SanitizeString(input)[i] !in {'<', '>', '"', '\''}
  {
    if input != [] {
      SanitizeRemovesMarkup(input[1..]);
      var e := Escape(input[0]);
      var rest := SanitizeString(input[1..]);
      assert SanitizeString(input) == e + rest;
      forall i | 0 <= i < |e + rest| ensures (e + rest)[i] !in {'<', '>', '"', '\''} {
        if i >= |e| {
          assert (e + rest)[i] == rest[i - |e|];
        }
      }
    }
  }

  /** The output is never shorter than the input. */
  lemma {:induction false} SanitizeNeverShrinks(input: string)
    ensures |SanitizeString(input)| >= |input|
  {
    if input != [] {
      SanitizeNeverShrinks(input[1..]);
    }
  }

  /** The output equals the input exactly when the input has none of the five special bytes. */
  lemma {:induction false} SanitizeIdentityIff(input: string)
    ensures SanitizeString(input) == input <==> forall i :: 0 <= i < |input| ==> !IsSpecial(input[i])
  {
    if input != [] {
      SanitizeIdentityIff(input[1..]);
      SanitizeNeverShrinks(input[1..]);
      var e := Escape(input[0]);
      var rest := SanitizeString(input[1..]);
      if IsSpecial(input[0]) {
        // the escape is longer than one byte, so the output is longer than the input
        assert |e| > 1;
        assert |SanitizeString(input)| > |input|;
      } else {
        assert SanitizeString(input) == [input[0]] + rest;
        assert input == [input[0]] + input[1..];
        if rest == input[1..] {
          assert SanitizeString(input) == input;
        } else {
          assert SanitizeString(input)[1..] == rest;
        }
        assert forall i :: 1 <= i < |input| ==> input[i] == input[1..][i - 1];
      }
    }
  }

  /** A lone `<` becomes exactly `&lt;`: the entity's `&` is not re-escaped. */
  lemma SanitizeSinglePass()
    ensures SanitizeString("<") == "&lt;"
    ensures SanitizeString("&lt;") == "&amp;lt;"
  {
    assert "&lt;"[1..] == "lt;";
    assert "lt;"[1..] == "t;";
    assert "t;"[1..] == ";";
  }

  /**
   * `TruncateString`: the input when it fits, else its first `maxLength`
   * bytes followed by `...`. A negative `maxLength` below the input length
   * makes the slice expression panic, modelled as `None`.
   */
  function TruncateString(input: string, maxLength: int): (r: Option<string>)
    ensures |input| <= maxLength ==> r == Some(input)
    ensures 0 <= maxLength < |input| ==>
      r.Some? && |r.value| == maxLength + 3 && r.value == input[..maxLength] + "..."
    ensures maxLength < 0 ==> r == None
  {
    if |input| <= maxLength then Some(input)
    else if maxLength < 0 then None
    else Some(input[..maxLength] + "...")
  }

  /** `IsValidUUID`: exactly 36 bytes holding exactly four dashes, wherever they are. */
  function IsValidUUID(id: string): (ok: bool)
    ensures ok <==> |id| == 36 && multiset(id)['-'] == 4
  {
    |id| == 36 && GoStrings.CountByte(id, '-') == 4
  }

  /** The positions of the dashes are not checked: four leading dashes pass too. */
  lemma DashesAnywhere(t: string)
    requires |t| == 32 && '-' !in t
    ensures IsValidUUID("----" + t)
  {
    assert multiset("----" + t) == multiset("----") + multiset(t);
    assert multiset("----")['-'] == 4;
  }

  /** The canonical nil UUID passes. */
  lemma NilUuidValid()
    ensures IsValidUUID(NilUuid)
  {
    DashCountValid(NilUuid);
  }

  /** Thirty-six bytes with four dashes among them pass. */
  lemma DashCountValid(id: string)
    requires |id| == 36 && multiset(id)['-'] == 4
    ensures IsValidUUID(id)
  {
  }

  /** `FormatError`: empty for a nil error, else `context: message`. */
  function FormatError(err: Option<string>, context: string): (r: string)
    ensures err == None <==> r == []
    ensures err.Some? ==> r == context + ": " + err.value
  {
    if err.None? then "" else context + ": " + err.value
  }
}
