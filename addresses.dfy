/** Address text helpers: lower-casing for comparison and the shortened display form. */
module Addresses {
  import opened Common

  function LowerChar(c: char): char
  {
    if 'A' <= c <= 'Z' then (c as int - 'A' as int + 'a' as int) as char else c
  }

  /** `toLowerCase` on the ASCII letters that hexadecimal addresses use. */
  function Lower(s: string): string
  {
    seq(|s|, i requires 0 <= i < |s| => LowerChar(s[i]))
  }

  /** `s.slice(0, n)` for n >= 0, counting characters: at most the first n characters. */
  function SliceHead(s: string, n: nat): string
  {
    if n <= |s| then s[..n] else s
  }

  /** `s.slice(-n)` for n > 0, counting characters: at most the last n characters. */
  function SliceTail(s: string, n: nat): string
  {
    if n <= |s| then s[|s| - n..] else s
  }

  const NotAvailable: string := "N/A"

  /** `shortenAddress`: "N/A" for a missing or empty address, else the first 6, "...", the last 4. */
  function ShortenAddress(address: Option<string>): string
  {
    if address.None? || address.value == [] then NotAvailable
    else SliceHead(address.value, 6) + "..." + SliceTail(address.value, 4)
  }

  /** The placeholder appears exactly when there is no address to show. */
  lemma ShortenIsPlaceholderIff(address: Option<string>)
    ensures ShortenAddress(address) == NotAvailable <==> address.None? || address.value == []
  {
    if address.Some? && address.value != [] {
      assert |ShortenAddress(address)| >= 5;
    }
  }

  /** An address of six characters or more keeps its first six and last four around "...". */
  lemma ShortenLongAddress(a: string)
    requires |a| >= 6
    ensures ShortenAddress(Some(a)) == a[..6] + "..." + a[|a| - 4..]
    ensures |ShortenAddress(Some(a))| == 13
    ensures ShortenAddress(Some(a))[..6] == a[..6]
    ensures ShortenAddress(Some(a))[6..9] == "..."
    ensures ShortenAddress(Some(a))[9..] == a[|a| - 4..]
  {
  }

  /** A shorter address is repeated whole on both sides, as `slice` does. */
  lemma ShortenShortAddress(a: string)
    requires 0 < |a| < 4
    ensures ShortenAddress(Some(a)) == a + "..." + a
  {
  }

  /** An address of four or five characters is kept whole in front and its last four follow "...". */
  lemma ShortenMidAddress(a: string)
    requires 4 <= |a| < 6
    ensures ShortenAddress(Some(a)) == a + "..." + a[|a| - 4..]
  {
  }
}
