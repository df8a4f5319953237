/** `src/components/RequestHistory.tsx`: how a history entry shows its status and its url. */
module RequestHistory {

  /** `getStatusColor`: the text colour class of a status code. */
  function StatusColor(status: int): (r: string)
    ensures status == 0 ==> r == "text-red-600"
    ensures r == "text-emerald-600" <==> 200 <= status < 300
    ensures r == "text-blue-600" <==> 300 <= status < 400
    ensures r == "text-orange-600" <==> 400 <= status < 500
    ensures r == "text-red-600" <==> !(200 <= status < 500)
  {
    if status == 0 then "text-red-600"
    else if status >= 200 && status < 300 then "text-emerald-600"
    else if status >= 300 && status < 400 then "text-blue-600"
    else if status >= 400 && status < 500 then "text-orange-600"
    else "text-red-600"
  }

  const DefaultMaxLength := 40

  /** `url.substring(0, n)` for the `n` the truncation uses: a negative length counts as 0. */
  function Prefix(url: string, n: int): (r: string)
    requires n <= |url|
    ensures |r| == if n < 0 then 0 else n
    ensures r == url[..|r|]
  {
    if n < 0 then "" else url[..n]
  }

  /** `truncateUrl(url, maxLength = 40)`: the url itself when it fits, otherwise its first
      `maxLength` characters followed by an ellipsis. */
  function TruncateUrl(url: string, maxLength: int := DefaultMaxLength): (r: string)
    ensures |url| <= maxLength ==> r == url
    ensures |url| > maxLength ==> |r| == (if maxLength < 0 then 0 else maxLength) + 3
    ensures |url| > maxLength ==> r[..|r| - 3] == url[..|r| - 3] && r[|r| - 3..] == "..."
  {
    if |url| <= maxLength then url else Prefix(url, maxLength) + "..."
  }

  /** A shortened url fits in its limit plus the ellipsis, so shortening it again with that larger
      limit leaves it alone; a url that fits is shown whole. */
  lemma TruncateUrlSettles(url: string, maxLength: int)
    requires maxLength >= 0
    ensures |TruncateUrl(url, maxLength)| <= maxLength + 3
    ensures TruncateUrl(TruncateUrl(url, maxLength), maxLength + 3) == TruncateUrl(url, maxLength)
  {
  }
}
