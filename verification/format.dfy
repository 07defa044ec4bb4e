/**
 * Address shortening for display: the first few characters, an ellipsis and
 * the last few. `ShortenAddress` is the formatting utility used by the top
 * traders card; `FormatAddress` is the token modal's variant with a longer
 * head and no empty-string guard.
 */
module Format {

  function Min(a: int, b: int): int {
    if a <= b then a else b
  }

  const Ellipsis: string := "..."

  /** `s.slice(0, n)` */
  function SliceHead(s: string, n: nat): string {
    s[..Min(n, |s|)]
  }

  /** `s.slice(-n)`; `slice(-0)` is `slice(0)`, the whole string. */
  function SliceTail(s: string, n: nat): string {
    if n == 0 then s else s[|s| - Min(n, |s|)..]
  }

  /** `${s.slice(0, head)}...${s.slice(-tail)}` */
  function Elide(s: string, head: nat, tail: nat): string {
    SliceHead(s, head) + Ellipsis + SliceTail(s, tail)
  }

  /** How many characters the short form keeps at each end. */
  function Kept(s: string): nat {
    Min(|s|, 4)
  }

  /**
   * The short form of an address: nothing for the empty string; otherwise the
   * first `min(4, |s|)` characters, "...", and the last `min(4, |s|)`.
   */
  function ShortenAddress(address: string): (r: string)
    ensures address == "" <==> r == ""
    ensures address != "" ==> |r| == 2 * Kept(address) + 3
    ensures address != "" ==> r[..Kept(address)] == address[..Kept(address)]
    ensures address != "" ==> r[Kept(address)..Kept(address) + 3] == Ellipsis
    ensures address != "" ==> r[Kept(address) + 3..] == address[|address| - Kept(address)..]
  {
    if address == "" then "" else Elide(address, 4, 4)
  }

  /** The short form is strictly shorter than the address exactly when the address has more than 11 characters. */
  lemma ShortenShorterIff(address: string)
    requires address != ""
    ensures |ShortenAddress(address)| < |address| <==> |address| > 11
  {
  }

  /** Only the first four and last four characters matter: two addresses shorten alike iff they agree on those (and on being empty). */
  lemma ShortenDependsOnlyOnEnds(a: string, b: string)
    ensures ShortenAddress(a) == ShortenAddress(b) <==>
      ((a == "") == (b == "")
       && (a != "" ==> Kept(a) == Kept(b)
                       && a[..Kept(a)] == b[..Kept(b)]
                       && a[|a| - Kept(a)..] == b[|b| - Kept(b)..]))
  {
    var ra, rb := ShortenAddress(a), ShortenAddress(b);
    if a != "" && b != "" && ra == rb {
      assert Kept(a) == Kept(b);
      var k := Kept(a);
      assert a[..k] == ra[..k] == rb[..k] == b[..k];
      assert a[|a| - k..] == ra[k + 3..] == rb[k + 3..] == b[|b| - k..];
    }
    if a != "" && b != "" && Kept(a) == Kept(b) && a[..Kept(a)] == b[..Kept(b)]
       && a[|a| - Kept(a)..] == b[|b| - Kept(b)..] {
      var k := Kept(a);
      assert ra == ra[..k] + ra[k..k + 3] + ra[k + 3..];
      assert rb == rb[..k] + rb[k..k + 3] + rb[k + 3..];
    }
  }

  /** The token modal's mint display: six leading characters, four trailing. */
  function FormatAddress(address: string): (r: string)
    ensures |r| == Min(|address|, 6) + 3 + Min(|address|, 4)
    ensures r[..Min(|address|, 6)] == address[..Min(|address|, 6)]
    ensures r[Min(|address|, 6)..Min(|address|, 6) + 3] == Ellipsis
    ensures r[Min(|address|, 6) + 3..] == address[|address| - Min(|address|, 4)..]
  {
    Elide(address, 6, 4)
  }

  /** Without the guard the token modal's variant turns the empty string into a bare ellipsis, where `ShortenAddress` gives the empty string. */
  lemma EmptyAddressForms()
    ensures FormatAddress("") == Ellipsis
    ensures ShortenAddress("") == ""
  {
  }
}
