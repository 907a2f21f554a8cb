/**
 * The quote card's helpers: the wei-to-USD conversion with its two-decimal rendering, the
 * storage link label, and the explorer hash taken from a quote's data URI. Arithmetic is
 * exact; the rendering is `toFixed(2)` on an exact non-negative value.
 */
module QuoteCard {
  import opened Wrappers
  import opened Text
  import opened Base64
  import opened Storage
  import opened Extractor

  /** Wei per USD: the agent stores prices with 15 decimals. */
  const WeiPerUsd: int := 1000000000000000

  /** `Number(wei) / 1e15` on an on-chain (unsigned) price. */
  function WeiToUsd(wei: nat): (usd: real)
    ensures usd >= 0.0
    ensures usd * (WeiPerUsd as real) == wei as real
  {
    wei as real / (WeiPerUsd as real)
  }

  /** `x.toFixed(2)` for `x >= 0`: whole units, a point, then exactly two digits of the rounded cents. */
  function Fixed2(x: real): (r: string)
    requires x >= 0.0
  {
    var c := RoundHalfAway(x * 100.0);
    NatToString(c / 100) + "." + [DigitChar(c % 100 / 10), DigitChar(c % 10)]
  }

  /** `weiToUsd(wei)`: the text shown on the card. */
  function WeiToUsdText(wei: nat): (r: string) {
    Fixed2(WeiToUsd(wei))
  }

  /** The rendering has exactly two decimals after a run of digits. */
  lemma Fixed2Shape(x: real)
    requires x >= 0.0
    ensures var r := Fixed2(x);
      |r| >= 4 && r[|r| - 3] == '.' && AllDigits(r[..|r| - 3]) && IsDigit(r[|r| - 2]) && IsDigit(r[|r| - 1])
  {
    var c := RoundHalfAway(x * 100.0);
    var w := NatToString(c / 100);
    assert Fixed2(x)[..|Fixed2(x)| - 3] == w;
  }

  /** An amount in whole cents renders as those cents. */
  lemma Fixed2Cents(cents: nat)
    ensures Fixed2(cents as real / 100.0)
              == NatToString(cents / 100) + "." + [DigitChar(cents % 100 / 10), DigitChar(cents % 10)]
  {
    var x := cents as real / 100.0;
    assert x * 100.0 == cents as real;
    RoundWhole(cents);
  }

  lemma RoundWhole(n: nat)
    ensures RoundHalfAway(n as real) == n
  {
    assert (n as real + 0.5).Floor == n;
  }

  /** A price with at most six decimals survives the conversion to wei and back exactly. */
  lemma MicroRoundTrip(micros: nat)
    ensures WeiToUsd(ToWei(micros as real / 1000000.0)) == micros as real / 1000000.0
  {
    assert micros as real / 1000000.0 * 1000000.0 == micros as real;
    assert ToWei(micros as real / 1000000.0) == micros * 1000000000;
  }

  /** A price in whole cents is shown on the card as exactly that price. */
  lemma CentsShown(cents: nat)
    ensures WeiToUsd(ToWei(cents as real / 100.0)) == cents as real / 100.0
    ensures WeiToUsdText(ToWei(cents as real / 100.0)) == Fixed2(cents as real / 100.0)
  {
    MicroRoundTrip(cents * 10000);
    assert (cents * 10000) as real / 1000000.0 == cents as real / 100.0;
  }

  /** Any non-negative price comes back within half a micro-dollar. */
  lemma ToWeiNearest(usd: real)
    requires usd >= 0.0
    ensures usd - 0.0000005 < WeiToUsd(ToWei(usd)) <= usd + 0.0000005
  {
    var m := RoundHalfAway(usd * 1000000.0);
    assert ToWei(usd) == m * 1000000000;
    assert WeiToUsd(ToWei(usd)) == m as real / 1000000.0;
  }

  /** More wei is never a lower price, and never fewer cents shown. */
  lemma WeiToUsdMonotone(a: nat, b: nat)
    requires a <= b
    ensures WeiToUsd(a) <= WeiToUsd(b)
    ensures RoundHalfAway(WeiToUsd(a) * 100.0) <= RoundHalfAway(WeiToUsd(b) * 100.0)
  {
    var x, y := WeiToUsd(a) * 100.0, WeiToUsd(b) * 100.0;
    assert x <= y;
    assert (x + 0.5).Floor <= (y + 0.5).Floor;
  }

  // ---------------------------------------------------------------------------------------
  // The storage link

  /** The link label: "local" for a locally stored quote, "view" for everything else. */
  function StorageLabel(uri: string): (text: string)
    ensures text == "local" <==> StartsWith(uri, LocalScheme)
    ensures text == "view" <==> !StartsWith(uri, LocalScheme)
  {
    if StartsWith(uri, LocalScheme) then "local" else "view"
  }

  /** `quoteDataURI.replace("0g://", "")`: the first occurrence only. */
  function ExplorerHash(uri: string): (h: string) {
    ReplaceFirst(uri, NativeScheme, "")
  }

  function ExplorerUrl(uri: string): (r: string) {
    "https://explorer.0g.ai/?hash=" + ExplorerHash(uri)
  }

  /** An uploaded quote's URI links to its root hash, whatever the hash contains. */
  lemma ExplorerOfUpload(rootHash: string)
    ensures ExplorerHash(NativeScheme + rootHash) == rootHash
  {
    var u := NativeScheme + rootHash;
    assert OccursAt(u, NativeScheme, 0);
    assert IndexOf(u, NativeScheme) == Some(0);
  }

  /** An inline quote's URI holds no `0g://` and is linked unchanged. */
  lemma ExplorerOfInline(json: seq<byte>)
    ensures ExplorerHash(InlineScheme + Encode(json)) == InlineScheme + Encode(json)
  {
    var e := Encode(json);
    var u := InlineScheme + e;
    EncodeAlphabet(json);
    assert DecodeChar(':').None?;
    forall i | 0 <= i
      ensures !OccursAt(u, NativeScheme, i)
    {
      if i + |NativeScheme| <= |u| {
        var w := u[i..i + |NativeScheme|];
        if i + 2 >= |InlineScheme| {
          assert w[2] == e[i + 2 - |InlineScheme|];
        } else if i == 2 {
          assert w[0] == 'o';
        } else {
          assert w[2] == InlineScheme[i + 2];
        }
      }
    }
    assert IndexOf(u, NativeScheme).None?;
  }
}
