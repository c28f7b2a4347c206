# ANKWATA payment sessions, modelled in Dafny

The server of this pay-to-play lottery keeps a module-level dictionary
`sessions` that maps a payment reference (`tx_ref`) to a record
`{status, winner, createdAt, flutterResp}`. Its Express routes change that
record in place:

- create-payment checks the fee and stores a `"pending"` record;
- check-payment and get-winner read it, and get-winner shows the winner only
  when the status is `"successful"`;
- webhook handles a nested `data.tx_ref`/`data.status` payload or a flat
  manual `tx_ref`/`status` payload, and draws a winner only when none exists;
- admin simulate-success forces a success and always draws a new winner.

`generate10Digit` turns a random draw in [0, 10^10) into a zero-padded
10-digit string. The browser client polls check-payment until it sees a
terminal status or the two-minute deadline passes, then fetches the winner and
splits it into ten display slots.

The project has six modules:

- `Js` holds optional values and JavaScript string truthiness.
- `Digits` models `String(n)`, `padStart`, the decimal value of a digit
  string, the winner format and the shape of a `tx_ref`.
- `Handlers` has one pure transition per route. Each takes the dictionary and
  the request and returns the new dictionary and the reply with its HTTP code.
  It also holds the invariant `WellFormed`, which the routes keep: a
  `"successful"` session has a winner, and every winner is 10 digits.
- `App` has the class `SessionStore`. Its `sessions` map field is updated
  step by step, one method per route, and each method's contract ties the new
  map to the transition in `Handlers`.
- `Properties` holds lemmas that relate several requests.
- `Client` models the polling loop as a `while` loop over the responses that
  arrived before the deadline, plus the slot formatting.

Each route runs without an `await` between reading and writing `sessions`, so
each route is one atomic step. The model has no interleaving.

External inputs are parameters:

- `n` with `0 <= n < 10^10` stands for `crypto.randomInt`.
- `refTime` and `rand < 1000` stand for `Date.now()` and
  `Math.floor(Math.random()*1000)`, which make up the reference.
- `createdAt` stands for the second `Date.now()`.
- `Gateway` is the outcome of the payment-initiation step: demo mode (no key
  configured), an answer with `resp.ok` and its JSON as text, or a thrown call.

The model follows the code where the code is weaker than a single-winner,
forward-only state machine:

- A nested webhook with any status other than `"successful"` turns a
  successful session into `"failed"` and keeps its winner
  (`Properties.NestedFailureAfterSuccess`).
- The flat webhook stores any status string, so it can set a successful
  session back to `"pending"` (`Properties.FlatWebhookReopens`).
- simulate-success always replaces the winner
  (`Properties.SimulateReplacesWinner`).
- create-payment never checks for an existing reference
  (`Properties.CreateOverwrites`).

So a winner does not imply `"successful"`. Only the direction "successful
implies a winner" is an invariant (`Handlers.WellFormed`).

## Model

| member | source | states |
|---|---|---|
| `Digits.ValueBound` | server.js:21-26 | a string of k decimal digits denotes a number below 10^k |
| `Digits.DecimalString` | server.js:25 | `String(n)` is a non-empty digit string with no leading zero when `n` is positive |
| `Digits.DecimalStringValue` | server.js:25 | the decimal value of `String(n)` is `n` |
| `Digits.DecimalStringInjective` | server.js:25 | distinct numbers have distinct decimal forms |
| `Digits.PadStart` | server.js:25 | `padStart` keeps a string at least `len` long as it is; otherwise it prefixes fill characters up to length `len` and ends with the original string |
| `Digits.Generate10Digit` | server.js:21-26 | for every draw `n` in [0, 10^10) the winner has length 10 and is all decimal digits |
| `Digits.Generate10DigitValue` | server.js:21-26 | the winner's decimal value is the draw `n` it came from, so distinct draws give distinct winners |
| `Digits.ZeroPadValue` | server.js:25 | padding a digit string with zeros to a length it does not exceed gives a digit string of exactly that length with the same value |
| `Digits.DecimalStringLength` | server.js:22-25 | a draw below 10^k has at most k digits, so padding to 10 never produces a longer string |
| `Digits.ZerosValue` | server.js:25 | leading zeros added by `padStart` do not change the decimal value |
| `Digits.PadDecimalValue` | server.js:25 | padding the shortest decimal form of a digit string's value back to the string's length returns that string |
| `Digits.Generate10DigitOnto` | server.js:21-26 | every 10-digit string is the winner for the draw equal to its value, so the winner format is a bijection between [0, 10^10) and the 10-digit strings |
| `Digits.TxRef` | server.js:38 | the reference starts with `ankwata_` and is at least 11 characters long |
| `Digits.TxRefInjective` | server.js:38 | two references are equal exactly when clock reading and random draw are both equal |
| `Handlers.Reply.Code` | server.js:34-153 | the HTTP status each route sets (lines 34, 78, 94, 101, 128, 142, 151 and 152; 200 by default elsewhere): 200 exactly for the replies that report success, 400 for an invalid amount, a gateway error or a webhook without `tx_ref`, 403 for an unconfirmed payment, 404 for an unknown reference, 500 for a thrown gateway call |
| `Handlers.EffectiveAmount` | server.js:32 | a missing or zero amount becomes 5000; the result is 5000 exactly when the amount is missing, 0 or 5000 |
| `Handlers.CreatePayment` | server.js:30-96 | a wrong amount is rejected with the store unchanged; demo mode or an ok gateway answer adds a record under the new reference with status `"pending"`, no winner, the given creation time and the gateway data (`null` in demo mode, the gateway's JSON otherwise, echoed in the reply), and leaves every other record unchanged; a gateway error and a thrown call change nothing; the invariant is kept |
| `Handlers.CheckPayment` | server.js:99-103 | "not found" exactly when the reference is missing, empty or unknown; otherwise the stored status |
| `Handlers.NestedStatus` | server.js:132 | the stored status is `"successful"` exactly when the payload status is `"successful"`, and `"failed"` otherwise |
| `Handlers.FlatStatus` | server.js:120 | a missing or empty status becomes `"successful"`; any other string is stored as given |
| `Handlers.Confirm` | server.js:121-125 | creates the record if absent (with no creation time and no gateway data), keeps an existing record's creation time and gateway data, sets the status, keeps an existing winner, draws a winner only for `"successful"` with none present, touches no other record, keeps the invariant |
| `Handlers.NestedTxRef` | server.js:113 | `payload.data && payload.data.tx_ref` is truthy only when `data` is present |
| `Handlers.WebhookTarget` | server.js:113-128 | a truthy nested `tx_ref` wins with the nested status mapping; otherwise a truthy flat `tx_ref` with the flat status default; otherwise no target |
| `Handlers.Webhook` | server.js:107-137 | "no tx_ref" exactly when neither shape names a reference, and then nothing changes; otherwise only the target record changes and gets the mapped status; `"successful"` leaves a winner on it; no existing winner is replaced; the invariant is kept |
| `Handlers.SimulateSuccess` | server.js:140-146 | "not found" with no change for a missing or unknown reference; otherwise only that record changes, to `"successful"` with the freshly drawn winner, and the reply carries the stored winner |
| `Handlers.GetWinner` | server.js:149-154 | "not found" for a missing or unknown reference; "payment not confirmed" exactly when the status is not `"successful"`; otherwise the stored winner, which under the invariant is a 10-digit string |
| `Properties.WebhookIdempotent` | server.js:121-135 | delivering any webhook twice has the same effect as delivering it once; in particular a redelivered success keeps the first winner |
| `Properties.NestedFailureAfterSuccess` | server.js:131-135 | a nested webhook with a status other than `"successful"` turns a successful session into `"failed"` and keeps its winner, and get-winner then reports "payment not confirmed" |
| `Properties.FlatWebhookReopens` | server.js:118-125 | the flat webhook stores `"pending"` over a successful session and keeps the winner |
| `Properties.SimulateReplacesWinner` | server.js:143-144 | for every session with a winner, some draw makes simulate-success replace that winner with a different one |
| `Properties.CreateOverwrites` | server.js:59-62 | a new reference equal to an existing key replaces that record by a pending record without a winner |
| `Properties.WinnerIffSuccessful` | server.js:149-154 | get-winner discloses a winner exactly when check-payment reports `"successful"` |
| `Properties.CreateConfirmRedeliver` | server.js:30-137 | create, then check-payment gives pending and get-winner gives not confirmed; a successful nested webhook gives a 10-digit winner; redelivery leaves that winner |
| `App.SessionStore.constructor` | server.js:19 | the store starts empty and well formed |
| `App.SessionStore.CreatePayment` | server.js:30-96 | updates `sessions` as `Handlers.CreatePayment` says and keeps the invariant |
| `App.SessionStore.CheckPayment` | server.js:99-103 | reads without changing `sessions`; the reply is that of `Handlers.CheckPayment`: "not found" exactly for a missing, empty or unknown reference, else the stored status |
| `App.SessionStore.Webhook` | server.js:107-137 | updates `sessions` as `Handlers.Webhook` says and keeps the invariant |
| `App.SessionStore.Touch` | server.js:121-125 | the in-place record update shared by both webhook shapes equals `Handlers.Confirm` |
| `App.SessionStore.SimulateSuccess` | server.js:140-146 | updates `sessions` as `Handlers.SimulateSuccess` says and keeps the invariant |
| `App.SessionStore.GetWinner` | server.js:149-154 | reads without changing `sessions`; the reply is that of `Handlers.GetWinner`: "not found" for a missing or unknown reference, "payment not confirmed" exactly when the status is not `"successful"`, and otherwise the stored winner, which is 10 digits |
| `Client.FirstStop` | script.js:75-87 | the position of the first ok `"successful"` or ok `"failed"` response, with no earlier such response, or the length when there is none |
| `Client.ConfirmedByFirstStop` | script.js:75-87 | an ok `"successful"` before any ok `"failed"` exactly when the first terminal response is a success |
| `Client.SuccessConfirms` | script.js:81-83 | an ok `"successful"` response stops the wait with payment confirmed |
| `Client.FailureRefutes` | script.js:84-85 | an ok `"failed"` response stops the wait with payment not confirmed |
| `Client.NonStoppingIgnored` | script.js:79-86 | a not-ok response, or an ok one with any other status, does not change the verdict |
| `Client.Poll` | script.js:73-87 | `confirmed` is true exactly when an ok `"successful"` comes before any ok `"failed"`; the loop has consumed every response through the first terminal one, or all of them |
| `Client.Split` | script.js:102 | `split('')` gives one one-character string per character |
| `Client.Join` | script.js:104 | joining one-character slots gives a string as long as the number of slots whose i-th character is slot i |
| `Client.JsString` | script.js:102 | `String(winner)` is the winner itself when present and `"undefined"` when the field is missing |
| `Client.JoinSplit` | script.js:102-104 | joining the split characters gives back the string |
| `Client.SlotDigits` | script.js:102 | a winner of at most 10 characters fills exactly 10 one-character slots, which join to the zero-padded winner |
| `Client.AwaitAndPick` | script.js:73-104 | get-winner is requested exactly when payment was confirmed; otherwise the play ends unconfirmed; a failed winner request gives its message or the default message; a successful one fills the slots with `SlotDigits` of the winner and shows their join, the padded winner, which is 10 slots for a winner of at most 10 characters |

## Left out

- Express setup, body parsing, static files and `app.listen`: framework plumbing.
- The payment gateway call, its payload and its error body: only the outcome is modelled, as `Gateway`. The gateway's JSON is stored as opaque text.
- `crypto.randomInt`, `Math.random` and `Date.now`: these are parameters. The model does not prove uniformity or fairness of the draw.
- `Number(...)` on arbitrary JSON: the amount is an optional integer. `None` stands for every value that `Number` maps to `NaN` or that is missing, and both become 5000 as in the code.
- JSON values that are not strings where the code expects `tx_ref` or `status` (numbers, objects, arrays) are not modelled. They are treated as absent or as some other string.
- A reference that names a member inherited by a plain JavaScript object (`constructor`, `__proto__` and the like) is looked up on the prototype in the code. The model's map has no prototype, so this behaviour is not captured.
- Signature checks and access control on the webhook and admin routes are absent from the code and are not modelled.
- Concurrency, locking, duplicate-reference errors, entropy failure and expiry do not exist in the code and are not modelled.
- The HTTP reply bodies are reduced to the fields the session logic decides (reference, status, winner, gateway data). The fixed message texts are represented by the reply constructors.
- In the client, everything outside lines 73-104 is not modelled: the request that creates the payment, the DOM, the slot animation `spinAndShow`, `sleep`, the real clock behind the deadline, `alert` and the event wiring. So is a response body that is not JSON, which would throw.
- A `fetch` that rejects is not modelled: a network failure of a check-payment poll (script.js:77) or of the get-winner request (script.js:98) throws to the catch at script.js:107-110, which ends the play with "Error: …" instead of polling on. `Client.Poll` and `Client.AwaitAndPick` see only requests that were answered.
- `Digits.PadStart` and `Client.Split` count Dafny characters (Unicode scalar values), whereas JavaScript's `padStart` and `split('')` count UTF-16 code units. The two counts differ only for characters outside the Basic Multilingual Plane, which never occur in a digit winner.
