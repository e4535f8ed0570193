/**
 * Value types shared by the request pipeline, and the few JavaScript string
 * operations it relies on (startsWith, includes, trim), written out so that
 * their meaning is explicit.
 */
module Common {

  datatype Option<+T> = None | Some(value: T)

  datatype Result<+T, +E> = Ok(value: T) | Err(error: E)

  /** A JSON value as the body parser delivers it in `req.body`. */
  datatype Json =
    | JNull
    | JBool(b: bool)
    | JNumber(n: real)
    | JString(s: string)
    | JArray(items: seq<Json>)
    | JObject(fields: map<string, Json>)

  /** The member `key` of an object body; `None` stands for JavaScript's `undefined`. */
  function Member(body: Json, key: string): (v: Option<Json>)
    ensures v.Some? <==> body.JObject? && key in body.fields
    ensures v.Some? ==> v.value == body.fields[key]
  {
    if body.JObject? && key in body.fields then Some(body.fields[key]) else None
  }

  /** `s.startsWith(prefix)` */
  predicate StartsWith(s: string, prefix: string)
  {
    |prefix| <= |s| && s[..|prefix|] == prefix
  }

  /** `s.includes(part)`, scanning the start positions from left to right. */
  predicate Contains(s: string, part: string)
    decreases |s|
  {
    StartsWith(s, part) || (|s| > 0 && Contains(s[1..], part))
  }

  /** `includes` holds exactly when `part` occurs at some position of `s`. */
  lemma {:induction false} ContainsAt(s: string, part: string)
    ensures Contains(s, part) <==> exists i :: 0 <= i <= |s| && StartsWith(s[i..], part)
  {
    if StartsWith(s, part) {
      assert s[0..] == s;
    } else if |s| == 0 {
      forall i | 0 <= i <= |s| ensures !StartsWith(s[i..], part) {
        assert s[i..] == s;
      }
    } else {
      ContainsAt(s[1..], part);
      if Contains(s[1..], part) {
        var i :| 0 <= i <= |s[1..]| && StartsWith(s[1..][i..], part);
        assert s[1..][i..] == s[i + 1..];
      } else {
        forall i | 0 <= i <= |s| ensures !StartsWith(s[i..], part) {
          if i == 0 {
            assert s[0..] == s;
          } else {
            assert s[1..][i - 1..] == s[i..];
          }
        }
      }
    }
  }

  /** The characters `String.prototype.trim` removes: WhiteSpace and LineTerminator of ECMA-262. */
  predicate IsJsSpace(c: char)
  {
    || c == '\t' || c == '\n' || c == '\U{000B}' || c == '\U{000C}' || c == '\r' || c == ' '
    || c == '\U{00A0}' || c == '\U{1680}' || ('\U{2000}' <= c <= '\U{200A}')
    || c == '\U{2028}' || c == '\U{2029}' || c == '\U{202F}' || c == '\U{205F}'
    || c == '\U{3000}' || c == '\U{FEFF}'
  }

  /** Every character of `s` is white space (the empty string included). */
  predicate IsBlank(s: string)
  {
    forall i :: 0 <= i < |s| ==> IsJsSpace(s[i])
  }

  /** Drops leading white space: the result is the longest suffix that does not start with a space. */
  function TrimStart(s: string): (r: string)
    ensures |r| <= |s| && r == s[|s| - |r|..]
    ensures IsBlank(s[..|s| - |r|])
    ensures r != [] ==> !IsJsSpace(r[0])
  {
    if |s| > 0 && IsJsSpace(s[0]) then
      var tail := s[1..];
      var r := TrimStart(tail);
      assert r == s[|s| - |r|..] by {
        assert tail[|tail| - |r|..] == s[|s| - |r|..];
      }
      assert IsBlank(s[..|s| - |r|]) by {
        assert s[..|s| - |r|] == [s[0]] + tail[..|tail| - |r|];
      }
      r
    else
      s
  }

  /** Drops trailing white space: the result is the longest prefix that does not end with a space. */
  function TrimEnd(s: string): (r: string)
    ensures |r| <= |s| && r == s[..|r|]
    ensures IsBlank(s[|r|..])
    ensures r != [] ==> !IsJsSpace(r[|r| - 1])
  {
    if |s| > 0 && IsJsSpace(s[|s| - 1]) then
      var init := s[..|s| - 1];
      var r := TrimEnd(init);
      assert r == s[..|r|] by {
        assert init[..|r|] == s[..|r|];
      }
      assert IsBlank(s[|r|..]) by {
        assert s[|r|..] == init[|r|..] + [s[|s| - 1]];
      }
      r
    else
      s
  }

  /** `s.trim()` */
  function Trim(s: string): string
  {
    TrimEnd(TrimStart(s))
  }

  /** `s.trim() === ""` holds exactly for the blank strings. */
  lemma TrimEmptyIffBlank(s: string)
    ensures Trim(s) == "" <==> IsBlank(s)
  {
    var t := TrimStart(s);
    if t == "" {
      assert s[..|s| - |t|] == s;
    } else {
      assert !IsJsSpace(s[|s| - |t|]);
      assert !IsJsSpace(TrimEnd(t)[0]);
    }
  }
}
