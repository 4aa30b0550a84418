# pretix-xpay return flow, modelled in Dafny

This project models the sequential logic of an early snapshot of the XPay payment plugin
for the pretix ticket shop. It covers two parts.

- **The browser-return view** (`ReturnView` and `XPayOrderView.process_result`). The
  customer comes back from the gateway's hosted payment page on a URL whose last segment is
  `ok` or `ko`. The view fails the payment or settles it against the gateway's status code,
  then redirects to the order page. It adds `?paid=yes` when the order is paid.
- **The transaction-code derivation** (`encode_order_id`). It hashes the payment's full id,
  the event slug, the organizer slug and a secret with SHA-256 and keeps 18 hex characters.

Modules:

- `Constants` (`constants.dfy`): the gateway's success, failure and pending code lists, and
  the classification of a code.
- `Utils` (`utils.dfy`): the transaction code. SHA-256 is a function parameter of type
  `string -> HexDigest`, where `HexDigest` holds exactly 64 lowercase hex characters. That
  shape is the only thing assumed of the hash. The UTF-8 encoding step is folded into it.
- `Host` (`host.dfy`): the shop entities the view touches: payment state, payment info,
  order status.
- `Views` (`views.dfy`): query-string parsing, the info merge, the branch
  decision, the settlement step, the return handler and the redirect.
- `ReturnFlow` (`return_flow.dfy`): properties over the gateway's own code lists and over
  sequences of returns for one payment.

How the model reads the snapshot:

- **Status and status sets are parameters.** The settlement tests `data["STATUS"]` against
  `PENDING_STATES`, `CANCELED_STATES` and `SUCCESS_STATES`, but none of the four is defined
  in the snapshot. The model takes the status code and a `StatusSets` value as inputs (`Env`).
  `NaturalStatusSets` pairs the sets with the lists of `constants.py`: pending codes, failure
  codes as the canceled set, success codes. That pairing is an assumption.
- **`_handle` takes `(result, params)`.** `get` calls `_handle` with one argument, but
  `_handle` declares two. The model uses the evident intent: the `result` path segment and
  the query dictionary.
- **Rollback on exceptions.** `process_result` runs in one database transaction. An
  exception raised inside it rolls back the info merge of lines 57-58. So every `Raise`
  outcome leaves the stored payment as it was. The later `self.payment.state` test on the
  `ok` path therefore reads the state from before the settlement.
- **Shop calls are modelled by their answers.**
  - `Env.quotaAvailable` says whether the shop's `confirm()` goes through. If it does not,
    `confirm()` raises `QuotaExceededException` and the transaction rolls back.
  - `Env.orderAfterConfirm` is the order status read back by `refresh_from_db()` after a
    confirmation.
  - `capture_payment` is not defined in any file of the snapshot. The model assumes it
    exists and returns normally: it is an action with no local state change and no error
    path (see "## Left out").
  - The shop's `fail()` (`Host.FailPayment`) is not part of the snapshot. The model gives it
    the shop's behaviour: it acts only on a created or pending payment, and it replaces the
    info only when the info it is given is non-empty. `fail(log_data=…)` passes no info, so
    it keeps the info.
- **One payment record.** The settlement is modelled on one record (`ProcessResult`). The
  code as written loses two state writes; see Findings.
- **A failing import.** `views.py` imports `HASH_TAG` from `utils`, but `HASH_TAG` is
  defined in `constants.py` (line 10), so the module as written does not import. The model
  does not depend on it.
- **The order-page URL is an input.** The URL built by `eventreverse` is the `orderUrl`
  parameter. Only the `?paid=yes` decision is modelled.

Three facts about the code are worth stating plainly:

- An unlisted status on a pending or created payment raises `PaymentException`. On the `ok`
  path that fails the payment; the payment is not left unchanged.
- The transaction code hashes the full id, event slug, organizer slug and secret. No attempt
  counter is involved.
- Nothing guards the capture against repetition (`ReturnFlow.CaptureRepeats`).

## Model

| member | source | states |
|---|---|---|
| Constants.Classify | pretix_xpay/constants.py:12-14 | "OK" is the only success code; "KO", "ANNULLO" and "ERRORE" are exactly the failure codes; "PEN" is the only pending code; every other code is unlisted |
| Constants.StatusListsDisjoint | pretix_xpay/constants.py:12-14 | no code is in two lists, and each class is exactly membership in its own list, so the classification is well defined |
| Constants.CaptureCodeIsUnlisted | pretix_xpay/constants.py:12-14 | the code "5" that the view tests for a capture is in none of the three lists |
| Utils.EncodeOrderId | pretix_xpay/utils.py:20-22 | the code has exactly 18 characters, is a prefix of the SHA-256 hex digest of the hashed string, and holds only lowercase hex characters |
| Utils.HashInputLayout | pretix_xpay/utils.py:21 | the hashed string is full id, event slug, organizer slug and secret, in that order and with nothing between them |
| Utils.EncodeDependsOnlyOnHashInput | pretix_xpay/utils.py:20-22 | the code is deterministic and depends on nothing but the concatenation of the four strings |
| Utils.SeparatorFreeCollision | pretix_xpay/utils.py:21 | moving the last character of the full id to the front of the event slug gives a different source with the same code, for any hash function |
| Utils.CollisionExample | pretix_xpay/utils.py:21 | payment "ABCDE-P-1" of event "2x" and payment "ABCDE-P-12" of event "x" in the same organizer share a code |
| Views.QueryDict | pretix_xpay/views.py:77-78 | the query dictionary has exactly the names sent, each bound to the last value sent for it |
| Views.MergeInfo | pretix_xpay/views.py:57 | after the merge the info holds every query parameter with the query's value and keeps every prior key the query does not mention |
| Views.NaturalStatusSets | pretix_xpay/constants.py:12-14 | the assumed status sets: a code is in the pending, canceled or success set exactly when its class is pending, failure or success |
| Views.Branch | pretix_xpay/views.py:60-72 | for a pending or created payment the tests are tried in order (capture code, pending set, canceled set, success set) and the first that holds wins; any other payment raises PaymentException |
| Views.ProcessResult | pretix_xpay/views.py:44-72 | an already confirmed payment is returned untouched; a payment neither pending nor created raises with nothing changed; a raise of either kind rolls back everything; a completed action merges the query into the info and moves the state only as the action says; only a confirmation changes the order status; confirmation happens exactly when the success branch is chosen and the quota allows it |
| Views.ProcessResultAsWritten | pretix_xpay/views.py:60-67 | the code as written takes the same decisions, but the pending and canceled state writes never reach the stored record |
| Views.RedirectToOrder | pretix_xpay/views.py:107-115 | the redirect is the order URL followed by "?paid=yes" when the order is paid and by nothing otherwise |
| Views.PaidMarkerExactlyWhenPaid | pretix_xpay/views.py:114 | for an order URL not already ending in the marker, the redirect ends in "?paid=yes" exactly when the order is paid |
| Views.FailByResult | pretix_xpay/views.py:84-87 | a failed return asks the shop to fail the payment with the query as its info: a pending or created payment becomes failed, with the query as info unless the query is empty; any other payment is left alone; the order is untouched and the failure message is shown |
| Views.Handle | pretix_xpay/views.py:82-105 | any result but "ok" (including "ko") asks the shop to fail the payment with the query as info without settling; "ok" settles exactly once and the redirect sees the order status the settlement left; a PaymentException fails the payment only if it is still pending or created; a QuotaExceededException never fails it |
| Views.Get | pretix_xpay/views.py:77-78 | the GET entry point handles the query dictionary; when a failed return fails a pending or created payment with a non-empty query, the payment info holds exactly the names sent, with their last values |
| ReturnFlow.NaturalBranchTable | pretix_xpay/views.py:60-72 | with the gateway's lists as status sets, a pending or created payment is captured on "5", set pending on "PEN", canceled on the failure codes, confirmed on "OK", and raises on unlisted codes |
| ReturnFlow.SettledStaysSettled | pretix_xpay/views.py:82-105 | a payment that is neither pending nor created stays so under any return, and no return confirms it |
| ReturnFlow.ConfirmsAtMostOnce | pretix_xpay/views.py:47-49 | over any sequence of returns for one payment at most one confirms it, and none does once it has left the pending and created states |
| ReturnFlow.ReturnAfterConfirmIsNoOp | pretix_xpay/views.py:47-49 | an "ok" return after one that confirmed takes no action and changes neither payment nor order |
| ReturnFlow.FailedReturnOnSettledPaymentIsNoOp | pretix_xpay/views.py:84-85 | a failed return on a payment that is neither pending nor created leaves payment and order unchanged, though the failure call is made |
| ReturnFlow.UnconfirmedReturnKeepsRedirect | pretix_xpay/views.py:89-100 | an "ok" return that does not confirm leaves the order status as it was, so the redirect carries the paid marker only if the order was already paid |
| ReturnFlow.CaptureRepeats | pretix_xpay/views.py:60-61 | two returns carrying the capture code both capture: nothing local prevents a second capture |
| ReturnFlow.LostStateWrite | pretix_xpay/views.py:62-64 | a created payment receiving "PEN" stays created as the code is written, and becomes pending in the single-record settlement |

## Left out

- `pretix_xpay/xpay_api.py`: the HTTP call to the gateway, the broken payment initialisation stub and the test/production URL switch. They are network glue or unfinished.
- `pretix_xpay/payment.py`: settings form, template rendering and the test-mode message. They are framework glue.
- `pretix_xpay/signals.py`: signal registration, the log-entry display string and the hash-algorithm setting default. There is no logic in them.
- `pretix_xpay/urls.py`: URL routing only.
- `decode_order_id`: it returns a constant placeholder.
- `XPayOrderView.dispatch` and the `payment` lookup: event and order lookup with the secret check, and the 404 responses. They are shop lookups; the model starts from the stored payment and order.
- Row locking and `transaction.atomic`: modelled as one sequential re-read-then-decide step, with rollback of the step on exceptions. Concurrency is not modelled.
- Message texts and log data: only which message is shown (`Notice`) is modelled.
- `eventreverse` URL building: the order URL is a parameter.
- The internals of the shop's `confirm()`: they are outside the snapshot; only its answers (`Env.quotaAvailable`, `Env.orderAfterConfirm`) are modelled.
- `capture_payment`: assumed to exist and to return normally, so its error paths are not modelled. The provider class of the snapshot defines no such method, so views.py:61 as written raises `AttributeError`, which neither handler at views.py:93-98 catches; a capture that raised `PaymentException` would instead fail the payment through views.py:95-98.
- Host.FailPayment: the shop's `fail()` is outside the snapshot; its guard (created or pending only) and its keeping of the info when given an empty one are assumed from the shop's behaviour, not proved from any file here.
- Utils.EncodeOrderId: assumes the `order_id_secret` setting is configured. The snapshot registers no default and no settings field for it, so an unset secret reads as `None` and `str + None` raises `TypeError` at utils.py:21; that error path is not modelled.
- Non-string values in the payment info dictionary: the info is a map from strings to strings, which is all the query can put in it.
- The SHA-256 algorithm: a foreign library call, kept as a parameter with an assumed 64-character lowercase-hex output.
- MAC signing, status-response parsing, gateway capture/void calls, the cancellation path, the compensating refund on quota failure and the periodic reconciliation sweep: none of them exists in the code of this snapshot.
- The POST variant of the return view: it is only a comment in the code.

## Findings

| source | as written | input that shows it | evidently intended | confidence | as-written member | corrected member |
|---|---|---|---|---|---|---|
| pretix_xpay/views.py:62-67 | the pending and canceled states are assigned to `self.payment`, a property that re-reads the record on every access; the saved object is another fresh read, so the state change is lost | a created payment, status "PEN", status sets taken from the gateway's lists (once the undefined names are supplied) | the payment becomes pending (canceled for a canceled-set status) | not executed; high, from the property's definition at views.py:40-42 | Views.ProcessResultAsWritten, ReturnFlow.LostStateWrite | Views.ProcessResult |
