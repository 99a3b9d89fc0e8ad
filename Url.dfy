/** Query strings as the browser builds them: percent-encoding of UTF-8 bytes
    (`encodeURIComponent` and the application/x-www-form-urlencoded serializer
    that `URLSearchParams.toString` uses) and a parameter list with `get`,
    `delete` and `toString`. */
module Url {
  import opened Wrappers
  import opened Seqs
  import opened Text

  /** The UTF-8 encoding of one Unicode scalar value. */
  function Utf8(c: char): (bytes: seq<nat>)
    ensures 1 <= |bytes| <= 4
    ensures forall i :: 0 <= i < |bytes| ==> bytes[i] < 256
    ensures |bytes| == 1 <==> c as int < 0x80
    ensures |bytes| == 1 ==> bytes[0] == c as int
  {
    var cp := c as int;
    if cp < 0x80 then [cp]
    else if cp < 0x800 then [0xC0 + cp / 64, 0x80 + cp % 64]
    else if cp < 0x10000 then [0xE0 + cp / 4096, 0x80 + (cp / 64) % 64, 0x80 + cp % 64]
    else [0xF0 + cp / 262144, 0x80 + (cp / 4096) % 64, 0x80 + (cp / 64) % 64, 0x80 + cp % 64]
  }

  predicate IsUpperHexDigit(c: char) { '0' <= c <= '9' || 'A' <= c <= 'F' }

  function HexDigit(d: nat): (c: char)
    requires d < 16
    ensures IsUpperHexDigit(c)
  {
    if d < 10 then ('0' as int + d) as char else ('A' as int + d - 10) as char
  }

  /** `%XX` for each byte, with upper-case hexadecimal digits. */
  function PercentBytes(bytes: seq<nat>): (r: string)
    requires forall i :: 0 <= i < |bytes| ==> bytes[i] < 256
    ensures forall i :: 0 <= i < |r| ==> r[i] == '%' || IsUpperHexDigit(r[i])
  {
    if bytes == [] then ""
    else ['%', HexDigit(bytes[0] / 16), HexDigit(bytes[0] % 16)] + PercentBytes(bytes[1..])
  }

  predicate IsAsciiAlphanumeric(c: char)
  {
    '0' <= c <= '9' || 'A' <= c <= 'Z' || 'a' <= c <= 'z'
  }

  /** The characters `encodeURIComponent` leaves as they are. */
  predicate IsUriUnreserved(c: char)
  {
    IsAsciiAlphanumeric(c) || c in "-_.!~*'()"
  }

  /** No unreserved character is a comma, so such an id is a single `selectedIds` piece. */
  lemma UnreservedHasNoComma(s: string)
    requires forall i :: 0 <= i < |s| ==> IsUriUnreserved(s[i])
    ensures ',' !in s
  {
    forall i | 0 <= i < |s| ensures s[i] != ',' {
      var c := s[i];
      assert IsUriUnreserved(c);
      assert c !in "-_.!~*'()" || c in ['-', '_', '.', '!', '~', '*', '\'', '(', ')'];
    }
  }

  /** The characters the form-urlencoded serializer leaves as they are. */
  predicate IsFormSafe(c: char)
  {
    IsAsciiAlphanumeric(c) || c in "*-._"
  }

  /** `encodeURIComponent(s)`. */
  function EncodeUriComponent(s: string): (r: string)
    ensures forall i :: 0 <= i < |r| ==> IsUriUnreserved(r[i]) || r[i] == '%' || IsUpperHexDigit(r[i])
  {
    if s == [] then ""
    else (if IsUriUnreserved(s[0]) then [s[0]] else PercentBytes(Utf8(s[0]))) + EncodeUriComponent(s[1..])
  }

  /** An id made only of unreserved characters (a UUID, say) is carried verbatim. */
  lemma {:induction false} EncodeUriComponentUnreserved(s: string)
    requires forall i :: 0 <= i < |s| ==> IsUriUnreserved(s[i])
    ensures EncodeUriComponent(s) == s
  {
    if s != [] {
      EncodeUriComponentUnreserved(s[1..]);
      assert s == [s[0]] + s[1..];
    }
  }

  /** The form-urlencoded rendering of one name or value: space becomes `+`. */
  function FormEncode(s: string): (r: string)
    ensures forall i :: 0 <= i < |r| ==> IsFormSafe(r[i]) || r[i] == '+' || r[i] == '%' || IsUpperHexDigit(r[i])
  {
    if s == [] then ""
    else
      (if IsFormSafe(s[0]) then [s[0]] else if s[0] == ' ' then "+" else PercentBytes(Utf8(s[0])))
      + FormEncode(s[1..])
  }

  /** A query string as an ordered list of name/value pairs. */
  type QueryParams = seq<(string, string)>

  /** `params.get(name)`: the value of the first pair with that name. */
  function GetParam(params: QueryParams, name: string): (r: Option<string>)
    ensures r.None? <==> forall k :: 0 <= k < |params| ==> params[k].0 != name
    ensures r.Some? ==> exists k :: 0 <= k < |params| && params[k] == (name, r.value) && forall j :: 0 <= j < k ==> params[j].0 != name
    decreases |params|, 1
  {
    if params == [] then None
    else if params[0].0 == name then Some(params[0].1)
    else
      var r := GetParam(params[1..], name);
      assert forall k :: 1 <= k < |params| ==> params[k] == params[1..][k - 1];
      GetParamSkipsHead(params, name);
      r
  }

  /** A first match in the tail is a first match in the whole list when the
      head has another name. */
  lemma GetParamSkipsHead(params: QueryParams, name: string)
    requires params != [] && params[0].0 != name
    ensures var r := GetParam(params[1..], name);
      r.Some? ==> exists k :: 0 <= k < |params| && params[k] == (name, r.value) && forall j :: 0 <= j < k ==> params[j].0 != name
    decreases |params|, 0
  {
    var r := GetParam(params[1..], name);
    if r.Some? {
      var k :| 0 <= k < |params[1..]| && params[1..][k] == (name, r.value) && forall j :: 0 <= j < k ==> params[1..][j].0 != name;
      assert params[k + 1] == (name, r.value);
      forall j | 0 <= j < k + 1 ensures params[j].0 != name {
        if j > 0 { assert params[j] == params[1..][j - 1]; }
      }
    }
  }

  /** `params.delete(name)`: every pair with that name is dropped. */
  function DeleteParam(params: QueryParams, name: string): (r: QueryParams)
    ensures forall k :: 0 <= k < |r| ==> r[k].0 != name
    ensures forall p :: p in r <==> p in params && p.0 != name
  {
    if params == [] then []
    else
      var tail := DeleteParam(params[1..], name);
      assert forall p :: p in params <==> p == params[0] || p in params[1..];
      if params[0].0 == name then tail else [params[0]] + tail
  }

  /** Deleting keeps the remaining pairs in their original order. */
  lemma {:induction false} DeleteParamIsSubsequence(params: QueryParams, name: string)
    ensures IsSubsequence(DeleteParam(params, name), params)
  {
    if params != [] {
      DeleteParamIsSubsequence(params[1..], name);
      var tail := DeleteParam(params[1..], name);
      if params[0].0 == name {
        SubsequenceOfTail(tail, params);
      } else {
        var r := DeleteParam(params, name);
        assert r[0] == params[0] && r[1..] == tail;
      }
    }
  }

  /** Deleting a name that is absent changes nothing. */
  lemma {:induction false} DeleteParamAbsent(params: QueryParams, name: string)
    requires forall k :: 0 <= k < |params| ==> params[k].0 != name
    ensures DeleteParam(params, name) == params
  {
    if params != [] {
      assert forall k :: 0 <= k < |params[1..]| ==> params[1..][k] == params[k + 1];
      DeleteParamAbsent(params[1..], name);
      assert params == [params[0]] + params[1..];
    }
  }

  function PairText(p: (string, string)): string
  {
    FormEncode(p.0) + "=" + FormEncode(p.1)
  }

  function PairTexts(params: QueryParams): (r: seq<string>)
    ensures |r| == |params|
    ensures forall k :: 0 <= k < |r| ==> r[k] == PairText(params[k])
  {
    if params == [] then [] else [PairText(params[0])] + PairTexts(params[1..])
  }

  /** `params.toString()`: `name=value` pairs joined by `&`. */
  function Serialize(params: QueryParams): (r: string)
    ensures forall k :: 0 <= k < |params| ==> Contains(r, PairText(params[k]))
  {
    var texts := PairTexts(params);
    JoinContainsParts(texts, "&");
    Join(texts, "&")
  }

  /** The serialized query is empty exactly when there are no pairs. */
  lemma SerializeEmptyIff(params: QueryParams)
    ensures Serialize(params) == "" <==> params == []
  {
    var texts := PairTexts(params);
    JoinEmptyIff(texts, "&");
    if params != [] {
      assert texts[0] == PairText(params[0]);
      assert '=' in texts[0] by { assert texts[0][|FormEncode(params[0].0)|] == '='; }
    }
  }

  /** A serialized query never contains `?` (it is always percent-encoded). */
  lemma SerializeHasNoQuestionMark(params: QueryParams)
    ensures '?' !in Serialize(params)
  {
    var texts := PairTexts(params);
    forall k | 0 <= k < |texts| ensures '?' !in texts[k] {
      var a := FormEncode(params[k].0);
      var b := FormEncode(params[k].1);
      FormEncodedHasNoQuestionMark(params[k].0);
      FormEncodedHasNoQuestionMark(params[k].1);
      assert texts[k] == a + "=" + b;
    }
    JoinAvoids(texts, "&", '?');
  }

  /** The form-urlencoded rendering of any string percent-encodes `?`. */
  lemma FormEncodedHasNoQuestionMark(s: string)
    ensures '?' !in FormEncode(s)
  {
    var r := FormEncode(s);
    forall i | 0 <= i < |r| ensures r[i] != '?' {
      var c := r[i];
      assert IsFormSafe(c) || c == '+' || c == '%' || IsUpperHexDigit(c);
      assert c !in "*-._" || c in ['*', '-', '.', '_'];
    }
  }
}
