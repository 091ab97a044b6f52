/** Text as the program measures it: bytes of UTF-8 and bytes inside a JSON string. */
module Utf8Text {

  /** Bytes of one character in UTF-8 (RFC 3629, section 3). */
  function Width(c: char): nat
  {
    if (c as int) < 0x80 then 1 else if (c as int) < 0x800 then 2 else if (c as int) < 0x10000 then 3 else 4
  }

  /** The control characters of Unicode, general category Cc. */
  predicate IsControl(c: char)
  {
    (c as int) < 0x20 || 0x7f <= (c as int) <= 0x9f
  }

  /** Bytes of one character inside a JSON string: escapes are one letter or four hexadecimal digits. */
  function Escaped(c: char): nat
  {
    if c == '"' || c == '\\' then 2
    else if (c as int) >= 0x20 then Width(c)
    else if (c as int) in {8, 9, 10, 12, 13} then 2
    else 6
  }

  function Bytes(s: string): nat
  {
    if s == "" then 0 else Width(s[0]) + Bytes(s[1..])
  }

  function EscapedBytes(s: string): nat
  {
    if s == "" then 0 else Escaped(s[0]) + EscapedBytes(s[1..])
  }

  predicate NoControl(s: string)
  {
    forall c :: c in s ==> !IsControl(c)
  }

  lemma {:induction false} BytesConcat(a: string, b: string)
    ensures Bytes(a + b) == Bytes(a) + Bytes(b)
  {
    if a == "" {
      assert a + b == b;
    } else {
      assert (a + b)[1..] == a[1..] + b;
      BytesConcat(a[1..], b);
    }
  }

  /** Without control characters escaping at most doubles a text. */
  lemma {:induction false} EscapingAtMostDoubles(s: string)
    requires NoControl(s)
    ensures EscapedBytes(s) <= 2 * Bytes(s)
  {
    if s != "" {
      assert s[0] in s && forall c :: c in s[1..] ==> c in s;
      EscapingAtMostDoubles(s[1..]);
    }
  }

  /** The longest prefix of at most `limit` bytes: cutting at the character boundary at or below it. */
  function Floor(s: string, limit: nat): (r: string)
    ensures r <= s && Bytes(r) <= limit
    ensures r == s || Bytes(r) + Width(s[|r|]) > limit
  {
    if s == "" || Width(s[0]) > limit then ""
    else
      var rest := Floor(s[1..], limit - Width(s[0]));
      assert ([s[0]] + rest)[1..] == rest;
      [s[0]] + rest
  }

  function WithoutControls(s: string): (r: string)
    ensures |r| == |s| && NoControl(r)
    ensures forall i :: 0 <= i < |s| && !IsControl(s[i]) ==> r[i] == s[i]
  {
    seq(|s|, i requires 0 <= i < |s| => if IsControl(s[i]) then '?' else s[i])
  }

  /** A JSON string with its quotes. */
  function Quoted(s: string): nat
  {
    2 + EscapedBytes(s)
  }
}
