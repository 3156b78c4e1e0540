/** Padded base64, to say what a ciphertext's length counts. */
module Base64 {
  import opened SyncTypes

  /** The character of six bits. */
  function Sextet(n: nat): (c: char)
    ensures c != '='
  {
    var bits := n % 64;
    if bits < 26 then 'A' + bits as char
    else if bits < 52 then 'a' + (bits - 26) as char
    else if bits < 62 then '0' + (bits - 52) as char
    else if bits == 62 then '+'
    else '/'
  }

  /** The characters of up to three bytes. */
  function Group(bytes: seq<bv8>): (text: string)
    requires 1 <= |bytes| <= 3
    ensures |text| == 4
    ensures text[3] == '=' <==> |bytes| < 3
    ensures text[2] == '=' <==> |bytes| < 2
  {
    if |bytes| == 1 then
      var n := bytes[0] as nat * 0x10;
      [Sextet(n / 64), Sextet(n), '=', '=']
    else if |bytes| == 2 then
      var n := (bytes[0] as nat * 0x100 + bytes[1] as nat) * 4;
      [Sextet(n / 4096), Sextet(n / 64), Sextet(n), '=']
    else
      var n := bytes[0] as nat * 0x10000 + bytes[1] as nat * 0x100 + bytes[2] as nat;
      [Sextet(n / 262144), Sextet(n / 4096), Sextet(n / 64), Sextet(n)]
  }

  /** Three bytes become four characters; the last one or two are padded to four. */
  function Encode(bytes: seq<bv8>): string {
    if bytes == [] then "" else if |bytes| <= 3 then Group(bytes) else Group(bytes[..3]) + Encode(bytes[3..])
  }

  /** An encoding's length, and how many padding characters it ends with. */
  lemma {:induction false} EncodeEnds(bytes: seq<bv8>)
    requires bytes != []
    ensures var text, n := Encode(bytes), |bytes|;
      && |text| >= 4 && |text| * 3 == (if n % 3 == 0 then n else n + 3 - n % 3) * 4
      && (text[|text| - 1] == '=' <==> n % 3 != 0)
      && (text[|text| - 2] == '=' <==> n % 3 == 1)
  {
    hide Group;
    if |bytes| > 3 {
      EncodeEnds(bytes[3..]);
      var text, rest := Encode(bytes), Encode(bytes[3..]);
      assert text == Group(bytes[..3]) + rest && |bytes| % 3 == |bytes[3..]| % 3;
      assert text[|text| - 1] == rest[|rest| - 1] && text[|text| - 2] == rest[|rest| - 2];
    }
  }

  /** The length counted of any bytes' base64 text is theirs. */
  lemma DecodedLengthExact(bytes: seq<bv8>)
    ensures DecodedLength(Encode(bytes)) == |bytes|
  {
    if bytes != [] {
      EncodeEnds(bytes);
      hide Encode;
    }
  }
}
