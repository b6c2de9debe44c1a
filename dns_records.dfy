/** The DNS resource records a homeserver publishes in its signed pkarr
    packet, and the octet limit of a TXT character-string. */
module DnsRecords {
  import opened Wrappers

  datatype IpAddr = V4(bits: nat) | V6(bits: nat)

  /** The record data used here: an HTTPS (SVCB) record of section 2 of
      RFC 9460 with the parameters the homeserver sets, an address record
      (A for IPv4, AAAA for IPv6), and a TXT record's character-strings. */
  datatype RData =
    | Https(priority: nat, target: string, port: Option<nat>, ipv4Hint: seq<nat>, ipv6Hint: seq<nat>, httpPort: Option<nat>)
    | Address(ip: IpAddr)
    | Txt(strings: seq<string>)

  /** Only the Internet class is used. */
  datatype DnsClass = IN

  datatype ResourceRecord = ResourceRecord(name: string, recordClass: DnsClass, ttl: nat, data: RData)

  /** How many octets UTF-8 uses for one character. */
  function Utf8Width(c: char): nat
  {
    if c as int < 0x80 then 1 else if c as int < 0x800 then 2 else if c as int < 0x1_0000 then 3 else 4
  }

  /** The length of a string's UTF-8 encoding, `str::len`. */
  function Utf8Length(s: string): nat
  {
    if s == [] then 0 else Utf8Length(s[..|s| - 1]) + Utf8Width(s[|s| - 1])
  }

  /** Every character takes one to four octets; ASCII takes exactly one. */
  lemma {:induction false} Utf8LengthBounds(s: string)
    ensures |s| <= Utf8Length(s) <= 4 * |s|
    ensures (forall i :: 0 <= i < |s| ==> s[i] as int < 0x80) ==> Utf8Length(s) == |s|
  {
    if s != [] {
      Utf8LengthBounds(s[..|s| - 1]);
    }
  }

  /** The most octets a character-string holds, per section 3.3 of
      RFC 1035. */
  const MaxCharacterString: nat := 255

  /** `CharacterString::new` accepts the text. */
  predicate FitsCharacterString(s: string)
  {
    Utf8Length(s) <= MaxCharacterString
  }
}
