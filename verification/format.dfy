/** Address formatting for display (src/utils/format.ts). */
module Format {

  /** Number of leading characters kept by TruncateAddress. */
  const StartLength: nat := 6
  /** Number of trailing characters kept by TruncateAddress. */
  const EndLength: nat := 4
  const Ellipsis: string := "..."

  /** JavaScript's normalisation of a slice index: a negative index counts
      from the end, and the result is clamped to [0, len]. */
  function SliceIndex(i: int, len: nat): (k: nat)
    ensures k <= len
    ensures 0 <= i <= len ==> k == i
    ensures -(len as int) <= i < 0 ==> k == len + i
  {
    if i < 0 then (if len + i < 0 then 0 else len + i)
    else if i > len then len
    else i
  }

  /** JavaScript's `s.slice(start, end)`: the characters from the normalised
      start up to the normalised end, or "" when they cross. */
  function Slice(s: string, start: int, end: int): (r: string)
    ensures SliceIndex(start, |s|) + |r| <= |s|
    ensures SliceIndex(start, |s|) <= SliceIndex(end, |s|) ==>
              |r| == SliceIndex(end, |s|) - SliceIndex(start, |s|)
    ensures forall k :: 0 <= k < |r| ==> r[k] == s[SliceIndex(start, |s|) + k]
  {
    var from, to := SliceIndex(start, |s|), SliceIndex(end, |s|);
    if from < to then s[from..to] else ""
  }

  /** `address.slice(-n)`: the last `n` characters. */
  function SliceFrom(s: string, start: int): (r: string)
    ensures -|s| <= start < 0 ==> r == s[|s| + start..]
  {
    Slice(s, start, |s|)
  }

  /** Shortens an address for display: the first six characters, an
      ellipsis and the last four; addresses shorter than ten characters
      (the empty one included) are shown as they are. */
  function TruncateAddress(address: string): (r: string)
    ensures |address| < StartLength + EndLength ==> r == address
    ensures |address| >= StartLength + EndLength ==>
              |r| == StartLength + |Ellipsis| + EndLength &&
              r[..StartLength] == address[..StartLength] &&
              r[StartLength..StartLength + |Ellipsis|] == Ellipsis &&
              r[StartLength + |Ellipsis|..] == address[|address| - EndLength..]
  {
    if address == "" || |address| < StartLength + EndLength then address
    else Slice(address, 0, StartLength) + Ellipsis + SliceFrom(address, -(EndLength as int))
  }

  /** Truncating an already truncated address changes nothing. */
  lemma TruncateIdempotent(address: string)
    ensures TruncateAddress(TruncateAddress(address)) == TruncateAddress(address)
  {
  }

  /** For addresses of ten characters or more the display depends on the
      first six and the last four characters only, and on nothing else. */
  lemma TruncateDeterminedByEnds(a: string, b: string)
    requires |a| >= StartLength + EndLength && |b| >= StartLength + EndLength
    ensures TruncateAddress(a) == TruncateAddress(b) <==>
              a[..StartLength] == b[..StartLength] &&
              a[|a| - EndLength..] == b[|b| - EndLength..]
  {
  }

  /** The addresses that truncation leaves as they are: the short ones,
      and the thirteen-character ones with an ellipsis in the middle. */
  lemma TruncateFixedPoints(address: string)
    ensures TruncateAddress(address) == address <==>
              |address| < StartLength + EndLength ||
              (|address| == StartLength + |Ellipsis| + EndLength &&
               address[StartLength..StartLength + |Ellipsis|] == Ellipsis)
  {
  }
}
