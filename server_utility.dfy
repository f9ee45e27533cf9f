/**
 * Server/ServerUtility: the index-range check and the normalisation of
 * Bluetooth-address text ("XX-XX-XX-XX-XX-XX" to "xx:xx:xx:xx:xx:xx").
 */
module ServerUtility {
  import opened Wrappers

  /** is_index_valid: an index is usable for a container of `count` elements. */
  predicate IsIndexValid(index: int, count: int)
  {
    index >= 0 && index < count
  }

  /** A container with no positive size has no valid index at all. */
  lemma NoIndexValidInEmptyRange(count: int)
    requires count <= 0
    ensures forall index: int :: !IsIndexValid(index, count)
  {
  }

  /** The valid indices for `count` are exactly the positions of a sequence of that length. */
  lemma IndexValidMeansInBounds<T>(s: seq<T>, index: int)
    ensures IsIndexValid(index, |s|) <==> 0 <= index < |s|
  {
  }

  /** int32_to_int8_verify: the caller guarantees the value fits a byte; it is returned unchanged. */
  function Int32ToInt8Verify(value: int): (r: bv8)
    requires 0 <= value <= 255
    ensures r as int == value
  {
    value as bv8
  }

  /** Length of a normalised address text, and the buffer it needs (text plus terminator). */
  const AddressLength: nat := 17
  const RequiredBufferSize: nat := 18

  predicate IsUpperHex(c: char) { 'A' <= c <= 'F' }
  predicate IsLowerHex(c: char) { 'a' <= c <= 'f' }
  predicate IsDecimal(c: char) { '0' <= c <= '9' }

  /** A position whose index is 2 modulo 3 holds a separator; every other position a hex digit. */
  predicate IsSeparatorPosition(i: nat) { i % 3 == 2 }

  function ToLower(c: char): char
    requires IsUpperHex(c)
  {
    (c as int + 32) as char
  }

  function ToUpper(c: char): char
    requires IsLowerHex(c)
  {
    (c as int - 32) as char
  }

  /**
   * The character written at position `i` for input character `c`, or None
   * when the input is rejected there.
   */
  function NormalizeChar(c: char, i: nat, lowercase: bool, separator: char): Option<char>
  {
    if IsUpperHex(c) && !IsSeparatorPosition(i) then
      Some(if lowercase then ToLower(c) else c)
    else if IsDecimal(c) && !IsSeparatorPosition(i) then
      Some(c)
    else if IsLowerHex(c) && !IsSeparatorPosition(i) then
      Some(if lowercase then c else ToUpper(c))
    else if (c == ':' || c == '-') && IsSeparatorPosition(i) then
      Some(separator)
    else
      None
  }

  /** Every one of the first `n` characters is accepted at its position. */
  predicate AcceptedPrefix(addr: seq<char>, n: nat, lowercase: bool, separator: char)
    requires n <= |addr|
  {
    forall k :: 0 <= k < n ==> NormalizeChar(addr[k], k, lowercase, separator).Some?
  }

  /** The text written for the first `n` characters, all of which are accepted. */
  function NormalizedPrefix(addr: seq<char>, n: nat, lowercase: bool, separator: char): (r: seq<char>)
    requires n <= |addr| && AcceptedPrefix(addr, n, lowercase, separator)
    ensures |r| == n
    ensures forall k :: 0 <= k < n ==> Some(r[k]) == NormalizeChar(addr[k], k, lowercase, separator)
  {
    seq(n, k requires 0 <= k < n => NormalizeChar(addr[k], k, lowercase, separator).value)
  }

  /** The whole address is well formed: 17 characters, each accepted at its position. */
  predicate WellFormedAddress(addr: seq<char>)
  {
    |addr| == AddressLength && AcceptedPrefix(addr, AddressLength, true, ':')
  }

  /** The normalised text of an address, or None when the text is not an address. */
  function Normalize(addr: seq<char>, lowercase: bool, separator: char): Option<seq<char>>
  {
    if |addr| == AddressLength && AcceptedPrefix(addr, AddressLength, lowercase, separator) then
      Some(NormalizedPrefix(addr, AddressLength, lowercase, separator))
    else
      None
  }

  /** Acceptance does not depend on the case flag or on the separator written. */
  lemma AcceptanceIgnoresFlags(addr: seq<char>, lowercase: bool, separator: char)
    ensures Normalize(addr, lowercase, separator).Some? <==> WellFormedAddress(addr)
  {
    if |addr| == AddressLength {
      forall k | 0 <= k < AddressLength
        ensures NormalizeChar(addr[k], k, lowercase, separator).Some?
            <==> NormalizeChar(addr[k], k, true, ':').Some?
      {
      }
    }
  }

  /**
   * The shape of a normalised address: the separator at every third position,
   * digits copied, and letters in the requested case.
   */
  lemma NormalizedShape(addr: seq<char>, lowercase: bool, separator: char, k: nat)
    requires Normalize(addr, lowercase, separator).Some?
    requires k < AddressLength
    ensures var r := Normalize(addr, lowercase, separator).value;
      |r| == AddressLength &&
      (IsSeparatorPosition(k) ==> r[k] == separator && (addr[k] == ':' || addr[k] == '-')) &&
      (!IsSeparatorPosition(k) ==>
        (IsDecimal(addr[k]) ==> r[k] == addr[k]) &&
        (lowercase ==> IsDecimal(r[k]) || IsLowerHex(r[k])) &&
        (!lowercase ==> IsDecimal(r[k]) || IsUpperHex(r[k])))
  {
    var r := Normalize(addr, lowercase, separator).value;
    assert Some(r[k]) == NormalizeChar(addr[k], k, lowercase, separator);
  }

  /** Normalising a normalised address again, with the same flags, changes nothing. */
  lemma {:induction false} NormalizeIdempotent(addr: seq<char>, lowercase: bool, separator: char)
    requires separator == ':' || separator == '-'
    requires Normalize(addr, lowercase, separator).Some?
    ensures Normalize(Normalize(addr, lowercase, separator).value, lowercase, separator)
         == Normalize(addr, lowercase, separator)
  {
    var r := Normalize(addr, lowercase, separator).value;
    forall k | 0 <= k < AddressLength
      ensures NormalizeChar(r[k], k, lowercase, separator) == Some(r[k])
    {
      assert Some(r[k]) == NormalizeChar(addr[k], k, lowercase, separator);
    }
    assert AcceptedPrefix(r, AddressLength, lowercase, separator);
    var r2 := NormalizedPrefix(r, AddressLength, lowercase, separator);
    assert forall k :: 0 <= k < AddressLength ==> r2[k] == r[k];
    assert r2 == r;
  }

  /** The documented example: dashes and upper case become colons and lower case. */
  lemma DocumentedExample()
    ensures Normalize("AB-CD-EF-01-23-45", true, ':') == Some("ab:cd:ef:01:23:45")
  {
    var addr := "AB-CD-EF-01-23-45";
    var want := "ab:cd:ef:01:23:45";
    forall k | 0 <= k < AddressLength
      ensures NormalizeChar(addr[k], k, true, ':') == Some(want[k])
    {
    }
    assert AcceptedPrefix(addr, AddressLength, true, ':');
    var r := NormalizedPrefix(addr, AddressLength, true, ':');
    assert forall k :: 0 <= k < AddressLength ==> r[k] == want[k];
    assert r == want;
  }

  /**
   * normalize_bluetooth_address: writes the normalised text and its terminator
   * into `result` (whose length is the buffer capacity) and reports success.
   * The text must be 17 characters and the buffer must hold 18. On a bad
   * character the scan stops there: the accepted prefix has been written and
   * no terminator is added.
   */
  method NormalizeBluetoothAddress(addr: seq<char>, lowercase: bool, separator: char, result: array<char>)
    returns (ok: bool)
    modifies result
    ensures ok <==> |addr| == AddressLength && result.Length >= RequiredBufferSize
                    && Normalize(addr, lowercase, separator).Some?
    ensures ok ==>
      && result[..AddressLength] == Normalize(addr, lowercase, separator).value
      && result[AddressLength] == '\0'
      && result[RequiredBufferSize..] == old(result[RequiredBufferSize..])
    ensures !ok && |addr| == AddressLength && result.Length >= RequiredBufferSize ==>
      exists bad :: 0 <= bad < AddressLength
        && AcceptedPrefix(addr, bad, lowercase, separator)
        && NormalizeChar(addr[bad], bad, lowercase, separator).None?
        && result[..bad] == NormalizedPrefix(addr, bad, lowercase, separator)
        && result[bad..] == old(result[bad..])
    ensures !(|addr| == AddressLength && result.Length >= RequiredBufferSize) ==>
      result[..] == old(result[..])
  {
    ok := true;
    var count := |addr|;
    if count == AddressLength && result.Length >= RequiredBufferSize {
      var i := 0;
      while ok && i < AddressLength
        invariant 0 <= i <= AddressLength
        invariant ok ==> AcceptedPrefix(addr, i, lowercase, separator)
                         && result[..i] == NormalizedPrefix(addr, i, lowercase, separator)
                         && result[i..] == old(result[i..])
        invariant !ok ==> 0 < i && NormalizeChar(addr[i - 1], i - 1, lowercase, separator).None?
                          && result[i - 1..] == old(result[i - 1..])
                          && AcceptedPrefix(addr, i - 1, lowercase, separator)
                          && result[..i - 1] == NormalizedPrefix(addr, i - 1, lowercase, separator)
        decreases AddressLength - i, ok
      {
        var c := addr[i];
        if IsUpperHex(c) && i % 3 != 2 {
          result[i] := if lowercase then ToLower(c) else c;
        } else if IsDecimal(c) && i % 3 != 2 {
          result[i] := c;
        } else if IsLowerHex(c) && i % 3 != 2 {
          result[i] := if lowercase then c else ToUpper(c);
        } else if (c == ':' || c == '-') && i % 3 == 2 {
          result[i] := separator;
        } else {
          ok := false;
        }
        i := i + 1;
      }
    } else {
      ok := false;
    }
    if ok {
      result[count] := '\0';
    }
  }
}
