/** The LMDB map size the homeserver opens its database with, read from
    the `PUBKY_LMDB_MAP_SIZE_BYTES` environment variable. */
module LmdbMapSize {
  import opened Wrappers
  import opened Strings

  /** `DEFAULT_MAP_SIZE`: 10 TiB of address space, not of disk. */
  const DefaultMapSize: nat := 10995116277760

  /** `MIN_MAP_SIZE`: 16 MiB. */
  const MinMapSize: nat := 16 * 1024 * 1024

  const U64Max: nat := 0xFFFF_FFFF_FFFF_FFFF

  /** `usize::MAX` on the 64-bit targets the default size compiles for. */
  const UsizeMax: nat := U64Max

  /** `desired_map_size`, with the variable's value as `env` (`None` when
      it is unset or not Unicode). */
  function DesiredMapSize(env: Option<string>): (size: nat)
    ensures MinMapSize <= size <= UsizeMax
  {
    match env
    case None => DefaultMapSize
    case Some(raw) =>
      var trimmed := Trim(raw);
      if trimmed == [] then DefaultMapSize
      else match ParseUnsigned(trimmed, U64Max)
        case None => DefaultMapSize
        case Some(parsed) =>
          var coerced := if parsed == 0 then MinMapSize else if parsed > UsizeMax then UsizeMax else parsed;
          if coerced < MinMapSize then MinMapSize else coerced
  }

  /** An unset, blank or unparsable value gives the default; a value below
      the minimum, zero included, gives the minimum; any other value is
      used as it is. */
  lemma MapSizeCases(env: Option<string>)
    ensures env.None? ==> DesiredMapSize(env) == DefaultMapSize
    ensures env.Some? && IsBlank(env.value) ==> DesiredMapSize(env) == DefaultMapSize
    ensures env.Some? && ParseUnsigned(Trim(env.value), U64Max).None? ==> DesiredMapSize(env) == DefaultMapSize
    ensures env.Some? && ParseUnsigned(Trim(env.value), U64Max).Some? ==>
      var v := ParseUnsigned(Trim(env.value), U64Max).value;
      && (v < MinMapSize ==> DesiredMapSize(env) == MinMapSize)
      && (MinMapSize <= v ==> DesiredMapSize(env) == v)
  {
    if env.Some? && IsBlank(env.value) {
      BlankTrimsToEmpty(env.value);
    }
  }

  lemma BlankTrimsToEmpty(s: string)
    requires IsBlank(s)
    ensures Trim(s) == []
  {
    TrimIsTrimmedSlice(s);
  }

  /** A size written in decimal, with or without surrounding spaces, is
      read back as itself when it is at least the minimum. */
  lemma DecimalSizeIsKept(n: nat)
    requires MinMapSize <= n <= U64Max
    ensures DesiredMapSize(Some(NatToString(n))) == n
    ensures DesiredMapSize(Some(" " + NatToString(n) + "\n")) == n
  {
    DecimalTrims(n);
    ParseUnsignedOfNat(n, U64Max);
    var s := NatToString(n);
    ParsedSizeIsKept(s, n);
    ParsedSizeIsKept(" " + s + "\n", n);
  }

  lemma ParsedSizeIsKept(raw: string, n: nat)
    requires MinMapSize <= n
    requires Trim(raw) != [] && ParseUnsigned(Trim(raw), U64Max) == Some(n)
    ensures DesiredMapSize(Some(raw)) == n
  {
  }

  /** A decimal rendering has no whitespace to trim. */
  lemma DecimalTrims(n: nat)
    ensures Trim(NatToString(n)) == NatToString(n)
    ensures Trim(" " + NatToString(n) + "\n") == NatToString(n)
  {
    var s := NatToString(n);
    DigitsOfNat(n);
    assert IsDigit(s[0]) && IsDigit(s[|s| - 1]);
    assert Trimmed(s);
    TrimPadded("", s, "");
    assert "" + s + "" == s;
    TrimPadded(" ", s, "\n");
  }

  /** "0" gives the minimum, and "-1" and "ten" give the default. */
  lemma MapSizeExamples()
    ensures DesiredMapSize(Some("0")) == MinMapSize
    ensures DesiredMapSize(Some("-1")) == DefaultMapSize
    ensures DesiredMapSize(Some("ten")) == DefaultMapSize
  {
    TrimPadded("", "0", "");
    assert "" + "0" + "" == "0";
    assert DigitsValue("0") == 0;
    TrimPadded("", "-1", "");
    assert "" + "-1" + "" == "-1";
    assert !IsDigit('-');
    TrimPadded("", "ten", "");
    assert "" + "ten" + "" == "ten";
    assert !IsDigit('t');
  }
}
