/** The attachment filename header: the browser's `encodeURIComponent` and the server's decoder.
    Characters are code points; bytes follow section 2.1 of RFC 3986 and section 3 of RFC 3629. */
module FilenameCodec {
  import opened Common

  type Code = nat

  predicate IsScalar(c: Code) { c < 0xD800 || 0xE000 <= c < 0x110000 }

  ghost predicate Scalars(s: seq<Code>) { forall i :: 0 <= i < |s| ==> IsScalar(s[i]) }

  predicate IsControl(c: Code) { c < 32 || c == 127 }

  // ---------------------------------------------------------------- UTF-8

  function Utf8Char(c: Code): (b: seq<nat>)
    requires IsScalar(c)
    ensures |b| >= 1 && forall i :: 0 <= i < |b| ==> b[i] < 256
    ensures c < 128 ==> b == [c]
    ensures c >= 128 ==> forall i :: 0 <= i < |b| ==> b[i] >= 128
  {
    if c < 0x80 then [c]
    else if c < 0x800 then [0xC0 + c / 64, 0x80 + c % 64]
    else if c < 0x10000 then [0xE0 + c / 4096, 0x80 + c / 64 % 64, 0x80 + c % 64]
    else [0xF0 + c / 262144, 0x80 + c / 4096 % 64, 0x80 + c / 64 % 64, 0x80 + c % 64]
  }

  function Utf8(s: seq<Code>): (b: seq<nat>)
    requires Scalars(s)
  {
    if s == [] then [] else Utf8Char(s[0]) + Utf8(s[1..])
  }

  predicate Tail(b: nat) { 0x80 <= b <= 0xBF }

  /** The second bytes that section 4 of RFC 3629 allows after a lead byte. */
  predicate SecondAllowed(lead: nat, b: nat) {
    if lead == 0xE0 then 0xA0 <= b <= 0xBF
    else if lead == 0xED then 0x80 <= b <= 0x9F
    else if lead == 0xF0 then 0x90 <= b <= 0xBF
    else if lead == 0xF4 then 0x80 <= b <= 0x8F
    else Tail(b)
  }

  /** The first character of a byte string, strictly, with the bytes it takes. */
  function DecodeChar(b: seq<nat>): (r: Option<(Code, nat)>)
    ensures r.Some? ==> IsScalar(r.value.0) && 1 <= r.value.1 <= |b|
  {
    if b == [] then None
    else if b[0] < 0x80 then Some((b[0], 1))
    else if 0xC2 <= b[0] <= 0xDF && |b| >= 2 && Tail(b[1]) then Some(((b[0] - 0xC0) * 64 + (b[1] - 0x80), 2))
    else if 0xE0 <= b[0] <= 0xEF && |b| >= 3 && SecondAllowed(b[0], b[1]) && Tail(b[2]) then
      Some(((b[0] - 0xE0) * 4096 + (b[1] - 0x80) * 64 + (b[2] - 0x80), 3))
    else if 0xF0 <= b[0] <= 0xF4 && |b| >= 4 && SecondAllowed(b[0], b[1]) && Tail(b[2]) && Tail(b[3]) then
      Some(((b[0] - 0xF0) * 262144 + (b[1] - 0x80) * 4096 + (b[2] - 0x80) * 64 + (b[3] - 0x80), 4))
    else None
  }

  function Utf8Decode(b: seq<nat>): (r: Option<seq<Code>>)
    ensures r.Some? ==> Scalars(r.value)
    decreases |b|
  {
    if b == [] then Some([])
    else match DecodeChar(b)
      case None => None
      case Some((c, n)) =>
        var rest := Utf8Decode(b[n..]);
        if rest.None? then None else Some([c] + rest.value)
  }

  /** The digits of a code point to base 64. */
  lemma Base64(c: Code)
    ensures c == c / 64 * 64 + c % 64
    ensures c / 64 == c / 4096 * 64 + c / 64 % 64
    ensures c / 4096 == c / 262144 * 64 + c / 4096 % 64
  {
    assert c / 64 / 64 == c / 4096 && c / 4096 / 64 == c / 262144;
  }

  lemma DecodeEncodedChar(c: Code, rest: seq<nat>)
    requires IsScalar(c)
    ensures DecodeChar(Utf8Char(c) + rest) == Some((c, |Utf8Char(c)|))
  {
    var b := Utf8Char(c) + rest;
    Base64(c);
    if c < 0x80 {
      assert b[0] == c;
    } else if c < 0x800 {
      assert b[0] == 0xC0 + c / 64 && b[1] == 0x80 + c % 64;
    } else if c < 0x10000 {
      assert b[0] == 0xE0 + c / 4096 && b[1] == 0x80 + c / 64 % 64 && b[2] == 0x80 + c % 64;
      assert c / 4096 == 0 ==> c / 64 >= 32;
      assert c / 4096 == 13 ==> c < 0xD800 && c / 64 < 864;
    } else {
      assert b[0] == 0xF0 + c / 262144 && b[1] == 0x80 + c / 4096 % 64;
      assert b[2] == 0x80 + c / 64 % 64 && b[3] == 0x80 + c % 64;
      assert c / 262144 == 0 ==> c / 4096 >= 16;
      assert c / 262144 == 4 ==> c / 4096 < 272;
      assert SecondAllowed(b[0], b[1]);
    }
  }

  lemma {:induction false} Utf8RoundTrip(s: seq<Code>)
    requires Scalars(s)
    ensures Utf8Decode(Utf8(s)) == Some(s)
  {
    if s != [] {
      var first, rest := Utf8Char(s[0]), Utf8(s[1..]);
      DecodeEncodedChar(s[0], rest);
      assert (first + rest)[|first|..] == rest;
      Utf8RoundTrip(s[1..]);
      assert [s[0]] + s[1..] == s;
    }
  }

  // ---------------------------------------------------------------- percent encoding

  predicate IsHex(c: Code) { 48 <= c <= 57 || 65 <= c <= 70 || 97 <= c <= 102 }

  function HexValue(c: Code): nat
    requires IsHex(c)
  {
    if c <= 57 then c - 48 else if c <= 70 then c - 55 else c - 87
  }

  function UpperHex(n: nat): (c: Code)
    requires n < 16
    ensures IsHex(c) && HexValue(c) == n && c < 128 && c != 0x25
  {
    if n < 10 then 48 + n else 55 + n
  }

  function PercentByte(b: nat): seq<Code>
    requires b < 256
  {
    [0x25, UpperHex(b / 16), UpperHex(b % 16)]
  }

  function PercentBytes(b: seq<nat>): seq<Code>
    requires forall i :: 0 <= i < |b| ==> b[i] < 256
  {
    if b == [] then [] else PercentByte(b[0]) + PercentBytes(b[1..])
  }

  /** Letters, digits and - _ . ! ~ * ' ( ) stand for themselves. */
  predicate Unreserved(c: Code) {
    48 <= c <= 57 || 65 <= c <= 90 || 97 <= c <= 122 || c in {0x2D, 0x5F, 0x2E, 0x21, 0x7E, 0x2A, 0x27, 0x28, 0x29}
  }

  function EncodeChar(c: Code): seq<Code>
    requires IsScalar(c)
  {
    if Unreserved(c) then [c] else PercentBytes(Utf8Char(c))
  }

  /** `encodeURIComponent` on a string of scalar values. */
  function Encode(s: seq<Code>): seq<Code>
    requires Scalars(s)
  {
    if s == [] then [] else EncodeChar(s[0]) + Encode(s[1..])
  }

  predicate TwoHex(s: seq<Code>, i: nat) { i + 2 < |s| && IsHex(s[i + 1]) && IsHex(s[i + 2]) }

  /** The guard's pattern: a percent sign that two hexadecimal digits do not follow. */
  predicate Malformed(s: seq<Code>) { exists i :: 0 <= i < |s| && s[i] == 0x25 && !TwoHex(s, i) }

  function UnquoteBytes(s: seq<Code>): seq<nat>
    decreases |s|
  {
    if s == [] then []
    else if s[0] == 0x25 && TwoHex(s, 0) then [HexValue(s[1]) * 16 + HexValue(s[2])] + UnquoteBytes(s[3..])
    else [s[0]] + UnquoteBytes(s[1..])
  }

  /** The length of the leading run of ASCII characters. */
  function AsciiRun(s: seq<Code>): (n: nat)
    ensures n <= |s| && forall i :: 0 <= i < n ==> s[i] < 128
    ensures n < |s| ==> s[n] >= 128
  {
    if s == [] || s[0] >= 128 then 0 else 1 + AsciiRun(s[1..])
  }

  /** Python's `unquote`: each ASCII run is unquoted to bytes and decoded on its own. */
  function UnquoteRuns(s: seq<Code>): Option<seq<Code>>
    decreases |s|
  {
    if s == [] then Some([])
    else
      var n := AsciiRun(s);
      if n == 0 then
        var rest := UnquoteRuns(s[1..]);
        if rest.None? then None else Some([s[0]] + rest.value)
      else
        var run, rest := Utf8Decode(UnquoteBytes(s[..n])), UnquoteRuns(s[n..]);
        if run.None? || rest.None? then None else Some(run.value + rest.value)
  }

  function Unquote(s: seq<Code>): Option<seq<Code>> {
    if 0x25 !in s then Some(s) else UnquoteRuns(s)
  }

  /** `_decode_terminal_filename`; None stands for its ValueError. */
  function Decode(s: seq<Code>): Option<seq<Code>> {
    if s == [] || Malformed(s) then None
    else
      var name := Unquote(s);
      if name.None? || name.value == [] || (exists i :: 0 <= i < |name.value| && IsControl(name.value[i])) then None
      else name
  }

  // ---------------------------------------------------------------- decoding what was encoded

  /** Unquoting reads one escaped byte, or one plain character, off the front. */
  lemma UnquotePercentByte(b: nat, rest: seq<Code>)
    requires b < 256
    ensures UnquoteBytes(PercentByte(b) + rest) == [b] + UnquoteBytes(rest)
  {
    var s := PercentByte(b) + rest;
    assert s[0] == 0x25 && s[1] == UpperHex(b / 16) && s[2] == UpperHex(b % 16) && s[3..] == rest;
  }

  lemma {:induction false} UnquotePercentBytes(b: seq<nat>, rest: seq<Code>)
    requires forall i :: 0 <= i < |b| ==> b[i] < 256
    ensures UnquoteBytes(PercentBytes(b) + rest) == b + UnquoteBytes(rest)
  {
    if b == [] {
      assert [] + rest == rest && b + UnquoteBytes(rest) == UnquoteBytes(rest);
    } else {
      var tail := PercentBytes(b[1..]) + rest;
      assert PercentBytes(b) + rest == PercentByte(b[0]) + tail;
      UnquotePercentByte(b[0], tail);
      UnquotePercentBytes(b[1..], rest);
      assert [b[0]] + (b[1..] + UnquoteBytes(rest)) == b + UnquoteBytes(rest);
    }
  }

  lemma {:induction false} UnquoteEncoded(s: seq<Code>)
    requires Scalars(s)
    ensures UnquoteBytes(Encode(s)) == Utf8(s)
  {
    if s != [] {
      UnquoteEncoded(s[1..]);
      if Unreserved(s[0]) {
        assert (EncodeChar(s[0]) + Encode(s[1..]))[1..] == Encode(s[1..]);
      } else {
        UnquotePercentBytes(Utf8Char(s[0]), Encode(s[1..]));
      }
    }
  }

  /** Encoded text is ASCII, and each percent sign in it has its two digits. */
  ghost predicate WellFormed(s: seq<Code>) {
    forall i :: 0 <= i < |s| ==> s[i] < 128 && (s[i] == 0x25 ==> TwoHex(s, i))
  }

  lemma {:induction false} PercentBytesWellFormed(b: seq<nat>)
    requires forall i :: 0 <= i < |b| ==> b[i] < 256
    ensures WellFormed(PercentBytes(b)) && (b != [] ==> 0x25 in PercentBytes(b))
  {
    if b != [] {
      PercentBytesWellFormed(b[1..]);
      WellFormedConcat(PercentByte(b[0]), PercentBytes(b[1..]));
      assert PercentBytes(b)[0] == 0x25;
    }
  }

  lemma WellFormedConcat(s: seq<Code>, t: seq<Code>)
    requires WellFormed(s) && WellFormed(t)
    ensures WellFormed(s + t)
  {
    forall i | 0 <= i < |s + t| ensures (s + t)[i] < 128 && ((s + t)[i] == 0x25 ==> TwoHex(s + t, i)) {
      if i < |s| {
        assert (s + t)[i] == s[i];
      } else {
        assert (s + t)[i] == t[i - |s|];
        assert TwoHex(t, i - |s|) ==> (s + t)[i + 1] == t[i - |s| + 1] && (s + t)[i + 2] == t[i - |s| + 2];
      }
    }
  }

  lemma {:induction false} EncodedWellFormed(s: seq<Code>)
    requires Scalars(s)
    ensures WellFormed(Encode(s)) && (s != [] ==> Encode(s) != [])
    ensures 0x25 !in Encode(s) ==> Encode(s) == s
  {
    if s != [] {
      EncodedWellFormed(s[1..]);
      if !Unreserved(s[0]) { PercentBytesWellFormed(Utf8Char(s[0])); }
      WellFormedConcat(EncodeChar(s[0]), Encode(s[1..]));
    }
  }

  /** The malformed-percent guard never fires on an encoded name. */
  lemma GuardNeverFires(s: seq<Code>)
    requires Scalars(s)
    ensures !Malformed(Encode(s))
  {
    EncodedWellFormed(s);
  }

  lemma UnquoteAscii(s: seq<Code>)
    requires s != [] && WellFormed(s)
    ensures UnquoteRuns(s) == Utf8Decode(UnquoteBytes(s))
  {
    assert AsciiRun(s) == |s| && s[..|s|] == s && s[|s|..] == [];
    assert forall x: seq<Code> :: x + [] == x;
  }

  lemma UnquoteInverse(s: seq<Code>)
    requires Scalars(s)
    ensures Unquote(Encode(s)) == Some(s)
  {
    EncodedWellFormed(s);
    if 0x25 in Encode(s) {
      UnquoteAscii(Encode(s));
      UnquoteEncoded(s);
      Utf8RoundTrip(s);
    }
  }

  /** The server reads back exactly what the browser's user named, for every name of scalar values:
      if and only if the name is not empty and holds no control character. */
  lemma RoundTripExactly(s: seq<Code>)
    requires Scalars(s)
    ensures Decode(Encode(s)) == Some(s) <==> s != [] && forall i :: 0 <= i < |s| ==> !IsControl(s[i])
    ensures Decode(Encode(s)) == Some(s) || Decode(Encode(s)) == None
  {
    EncodedWellFormed(s);
    GuardNeverFires(s);
    UnquoteInverse(s);
  }

  /** A header is refused wherever in it a percent sign lacks its two digits; one without any percent sign
      is read as it is, unless it is empty or has a control character. */
  lemma HeaderRead(s: seq<Code>, i: nat)
    requires i < |s|
    ensures s[i] == 0x25 && !(i + 2 < |s| && IsHex(s[i + 1]) && IsHex(s[i + 2])) ==> Decode(s) == None
    ensures 0x25 !in s ==> Decode(s) == if exists j :: 0 <= j < |s| && IsControl(s[j]) then None else Some(s)
  {
    hide UnquoteRuns;
  }

  /** Every accepted name is itself a name that survives the round trip. */
  lemma AcceptedNamesSurvive(header: seq<Code>)
    requires forall i :: 0 <= i < |header| ==> header[i] < 256
    requires Decode(header).Some?
    ensures Scalars(Decode(header).value)
    ensures Decode(Encode(Decode(header).value)) == Decode(header)
  {
    UnquoteScalars(header);
    RoundTripExactly(Decode(header).value);
  }

  lemma {:induction false} UnquoteScalars(s: seq<Code>)
    requires forall i :: 0 <= i < |s| ==> s[i] < 256
    ensures UnquoteRuns(s).Some? ==> Scalars(UnquoteRuns(s).value)
    decreases |s|
  {
    if s != [] {
      var n := AsciiRun(s);
      UnquoteScalars(if n == 0 then s[1..] else s[n..]);
    }
  }
}
