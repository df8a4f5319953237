/** `src/components/ResponseDisplay.tsx`: how the last response shows its status and its body. */
module ResponseDisplay {
  import RequestHistory

  /** `getStatusColor`: the text and background classes of a status code. */
  function StatusColor(status: int): (r: string)
    ensures status == 0 ==> r == "text-red-600 bg-red-50"
    ensures r == "text-emerald-600 bg-emerald-50" <==> 200 <= status < 300
    ensures r == "text-blue-600 bg-blue-50" <==> 300 <= status < 400
    ensures r == "text-orange-600 bg-orange-50" <==> 400 <= status < 500
    ensures r == "text-red-600 bg-red-50" <==> !(200 <= status < 500)
  {
    if status == 0 then "text-red-600 bg-red-50"
    else if status >= 200 && status < 300 then "text-emerald-600 bg-emerald-50"
    else if status >= 300 && status < 400 then "text-blue-600 bg-blue-50"
    else if status >= 400 && status < 500 then "text-orange-600 bg-orange-50"
    else "text-red-600 bg-red-50"
  }

  /** The two panels band statuses alike: two statuses get the same classes here exactly when they
      get the same class in the history, and the history's class is how this one begins. */
  lemma StatusColorsAgree(a: int, b: int)
    ensures StatusColor(a) == StatusColor(b) <==> RequestHistory.StatusColor(a) == RequestHistory.StatusColor(b)
    ensures RequestHistory.StatusColor(a) <= StatusColor(a)
  {
  }

  /** `response.body || 'No response body'`. */
  function BodyText(body: string): (r: string)
    ensures r != ""
    ensures body != "" ==> r == body
    ensures body == "" ==> r == "No response body"
  {
    if body == "" then "No response body" else body
  }
}
