/** The gateway outcome codes (`esito`) the plugin knows, and the classification
    of a code into success, failure or pending. */
module Constants {

  /** Codes the gateway uses for a successful payment. */
  const StatusSuccess: seq<string> := ["OK"]

  /** Codes the gateway uses for a refused, annulled or erroneous payment. */
  const StatusFails: seq<string> := ["KO", "ANNULLO", "ERRORE"]

  /** Codes the gateway uses for a payment that is not settled yet. */
  const StatusPending: seq<string> := ["PEN"]

  datatype StatusClass = Success | Fail | Pending | Unlisted

  /** The class of a gateway code: the list it appears in, or Unlisted. */
  function Classify(code: string): (c: StatusClass)
    ensures c == Success <==> code == "OK"
    ensures c == Fail <==> code == "KO" || code == "ANNULLO" || code == "ERRORE"
    ensures c == Pending <==> code == "PEN"
    ensures c == Unlisted <==> code !in StatusSuccess + StatusFails + StatusPending
  {
    if code in StatusSuccess then Success
    else if code in StatusFails then Fail
    else if code in StatusPending then Pending
    else Unlisted
  }

  /** No code is in two lists, so the order in which Classify tests them does not matter:
      each class is exactly membership in its own list. */
  lemma StatusListsDisjoint(code: string)
    ensures !(code in StatusSuccess && code in StatusFails)
    ensures !(code in StatusSuccess && code in StatusPending)
    ensures !(code in StatusFails && code in StatusPending)
    ensures Classify(code) == Success <==> code in StatusSuccess
    ensures Classify(code) == Fail <==> code in StatusFails
    ensures Classify(code) == Pending <==> code in StatusPending
  {
  }

  /** A code outside the three lists, such as the "5" the return view tests for,
      belongs to none of the classes. */
  lemma CaptureCodeIsUnlisted()
    ensures Classify("5") == Unlisted
  {
  }
}
