/**
 * The address shortener of the page header: the first six characters, an
 * ellipsis, and the last four, cut with JavaScript's `String.prototype.slice`.
 */
module Header {

  function Min(a: int, b: int): int { if a <= b then a else b }
  function Max(a: int, b: int): int { if a <= b then b else a }

  /** Where `slice` starts or stops for an index: negative indices count from the end; both are clamped to the string. */
  function SliceIndex(len: nat, k: int): (i: nat)
    ensures i <= len
    ensures k >= 0 ==> i == Min(k, len)
    ensures k < 0 ==> i == Max(len + k, 0)
  {
    if k < 0 then (if len + k < 0 then 0 else len + k) else if k < len then k else len
  }

  /** `s.slice(start, end)`: the characters from the clamped start up to the clamped end, none when the end is not after the start. */
  function Slice(s: string, start: int, end: int): (r: string)
    ensures |r| == Max(0, SliceIndex(|s|, end) - SliceIndex(|s|, start))
    ensures forall k :: 0 <= k < |r| ==> r[k] == s[SliceIndex(|s|, start) + k]
  {
    var i, j := SliceIndex(|s|, start), SliceIndex(|s|, end);
    if i < j then s[i..j] else []
  }

  /** `s.slice(start)`: from the clamped start to the end. */
  function SliceFrom(s: string, start: int): (r: string)
    ensures r == s[SliceIndex(|s|, start)..]
  {
    Slice(s, start, |s|)
  }

  /** The first six characters, then `...`, then the last four, each cut with `slice`. */
  function FormatAddress(address: string): (r: string)
    ensures var prefix := if |address| < 6 then address else address[..6];
      var suffix := if |address| < 4 then address else address[|address| - 4..];
      r == prefix + "..." + suffix
    ensures |address| >= 6 ==> r[..6] == address[..6]
    ensures |address| >= 4 ==> r[|r| - 4..] == address[|address| - 4..]
    ensures |address| >= 10 ==> |r| == 13 && r[6..9] == "..."
  {
    Slice(address, 0, 6) + "..." + SliceFrom(address, -4)
  }

  /** The output is the documented layout and never longer than 13 characters. */
  lemma FormatAddressLength(address: string)
    ensures |FormatAddress(address)| == Min(|address|, 6) + 3 + Min(|address|, 4)
    ensures |FormatAddress(address)| <= 13
  {
  }

  /** Within the bounds of the string, `slice` is plain subsequence selection. */
  lemma SliceWithinBounds(s: string, start: int, end: int)
    requires 0 <= start <= end <= |s|
    ensures Slice(s, start, end) == s[start..end]
  {
    var r := Slice(s, start, end);
    assert |r| == end - start;
    assert forall k :: 0 <= k < |r| ==> r[k] == s[start..end][k];
  }

  /** A negative start counts from the end: `s.slice(-k)` is the last k characters, or all of a shorter string; `-0` is `0`, the whole string. */
  lemma SliceFromNegative(s: string, k: nat)
    ensures SliceFrom(s, -(k as int)) == if 0 < k <= |s| then s[|s| - k..] else s
  {
  }

  /** A full 42-character hexadecimal address keeps its `0x` and first four digits, then `...`, then its last four digits. */
  lemma FormatHexAddress(address: string)
    requires |address| == 42 && address[..2] == "0x"
    ensures FormatAddress(address) == address[..6] + "..." + address[38..]
    ensures FormatAddress(address)[..2] == "0x"
  {
  }
}
