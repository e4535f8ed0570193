/**
 * The UUID syntax used on query parameters,
 *   /^[0-9a-f]{8}-[0-9a-f]{4}-[0-9a-f]{4}-[0-9a-f]{4}-[0-9a-f]{12}$/i,
 * which is also the shape zod's `.uuid()` accepts in the request-body schemas,
 * and the case-insensitive comparison the store applies to a `uuid` column.
 */
module Uuid {

  /** `[0-9a-f]` under the `i` flag */
  predicate IsHexDigit(c: char)
  {
    ('0' <= c <= '9') || ('a' <= c <= 'f') || ('A' <= c <= 'F')
  }

  /** Positions of the four hyphens in the 8-4-4-4-12 layout. */
  predicate IsHyphenPosition(i: int)
  {
    i == 8 || i == 13 || i == 18 || i == 23
  }

  /** The regex, read position by position: anchored at both ends, so exactly 36 characters. */
  predicate IsUuid(s: string)
  {
    |s| == 36 &&
    forall i :: 0 <= i < |s| ==> if IsHyphenPosition(i) then s[i] == '-' else IsHexDigit(s[i])
  }

  predicate AllHex(s: string)
  {
    forall i :: 0 <= i < |s| ==> IsHexDigit(s[i])
  }

  /** The regex, read group by group: hex groups of the given widths separated by single hyphens. */
  predicate HexGroups(s: string, widths: seq<nat>)
    decreases |widths|
  {
    if |widths| == 0 then false
    else if |widths| == 1 then |s| == widths[0] && AllHex(s)
    else
      |s| > widths[0] && AllHex(s[..widths[0]]) && s[widths[0]] == '-' &&
      HexGroups(s[widths[0] + 1..], widths[1..])
  }

  const UuidWidths: seq<nat> := [8, 4, 4, 4, 12]

  /** One step of the group reading: a group at offset `k` of `s`. */
  lemma GroupStep(s: string, k: nat, w: nat, rest: seq<nat>)
    requires k + w < |s| && |rest| > 0
    ensures HexGroups(s[k..], [w] + rest) <==>
      (AllHex(s[k..k + w]) && s[k + w] == '-' && HexGroups(s[k + w + 1..], rest))
  {
    var t := s[k..];
    assert ([w] + rest)[1..] == rest;
    assert t[..w] == s[k..k + w];
    assert t[w + 1..] == s[k + w + 1..];
  }

  /** The two readings of the regex agree. */
  lemma UuidIsGroups(s: string)
    ensures IsUuid(s) <==> HexGroups(s, UuidWidths)
  {
    if |s| == 36 {
      assert s[0..] == s;
      GroupStep(s, 0, 8, [4, 4, 4, 12]);
      GroupStep(s, 9, 4, [4, 4, 12]);
      GroupStep(s, 14, 4, [4, 12]);
      GroupStep(s, 19, 4, [12]);
      assert HexGroups(s[24..], [12]) <==> AllHex(s[24..]);
      if HexGroups(s, UuidWidths) {
        forall i | 0 <= i < |s| ensures if IsHyphenPosition(i) then s[i] == '-' else IsHexDigit(s[i]) {
          if i < 8 { assert s[0..8][i] == s[i]; }
          else if 8 < i < 13 { assert s[9..13][i - 9] == s[i]; }
          else if 13 < i < 18 { assert s[14..18][i - 14] == s[i]; }
          else if 18 < i < 23 { assert s[19..23][i - 19] == s[i]; }
          else if 23 < i { assert s[24..][i - 24] == s[i]; }
        }
      }
      if IsUuid(s) {
        assert AllHex(s[0..8]) && AllHex(s[9..13]) && AllHex(s[14..18]) && AllHex(s[19..23]) && AllHex(s[24..]);
      }
    }
  }

  function LowerAscii(c: char): char
  {
    if 'A' <= c <= 'Z' then (c as int + 32) as char else c
  }

  /**
   * Equality of two `uuid` values as the store compares them: the text is
   * cast to `uuid`, so hex digits compare without regard to case.
   */
  predicate SameUuid(a: string, b: string)
  {
    |a| == |b| && forall i :: 0 <= i < |a| ==> LowerAscii(a[i]) == LowerAscii(b[i])
  }

  /** The text with every ASCII capital letter lowered. */
  function Lower(s: string): (r: string)
    ensures |r| == |s|
    ensures forall i :: 0 <= i < |s| ==> r[i] == LowerAscii(s[i])
  {
    seq(|s|, i requires 0 <= i < |s| => LowerAscii(s[i]))
  }

  /**
   * Two spellings match exactly when their lower-case forms are the same
   * text; in particular every spelling matches its lower-case form, which is
   * again a UUID when the spelling is one.
   */
  lemma SameUuidIgnoresCase(a: string, b: string)
    ensures SameUuid(a, b) <==> Lower(a) == Lower(b)
    ensures SameUuid(a, Lower(a))
    ensures IsUuid(a) ==> IsUuid(Lower(a))
  {
    if SameUuid(a, b) {
      assert forall i :: 0 <= i < |a| ==> Lower(a)[i] == Lower(b)[i];
    }
    if Lower(a) == Lower(b) {
      assert forall i :: 0 <= i < |a| ==> LowerAscii(a[i]) == Lower(a)[i] == Lower(b)[i] == LowerAscii(b[i]);
    }
  }
}
