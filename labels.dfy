/** The count captions of the two pages, which spell the same plural rule two ways. */
module Labels {
  import Decimal

  /** The word under each letter column of the audience display
      (app/resultado/page.tsx): singular exactly when the column holds one call. */
  function CountWord(n: nat): (r: string)
    ensures r == "número" <==> n == 1
    ensures r == "números" <==> n != 1
  {
    if n == 1 then "número" else "números"
  }

  /** The caption of the console's full-history overlay (app/page.tsx):
      the count, then "número" with an "s" appended unless the count is 1. */
  function TotalCaption(n: nat): (r: string)
    ensures |r| > 7 && r[..7] == "Total: "
    ensures r[|r| - 1] == 's' <==> n != 1
  {
    "Total: " + Decimal.ToDecimal(n) + " número" + (if n != 1 then "s" else "")
  }

  /** Both pages pluralise the same way. */
  lemma TotalCaptionUsesCountWord(n: nat)
    ensures TotalCaption(n) == "Total: " + Decimal.ToDecimal(n) + " " + CountWord(n)
  {
  }
}
