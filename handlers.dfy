/** The session bookkeeping of the server's routes, one pure transition per
    route: each takes the `sessions` dictionary (tx_ref to session record) and
    the request, and gives the new dictionary and the reply. A route runs from
    start to finish without yielding between reading and writing `sessions`,
    so each is one step. */
module Handlers {
  import opened Js
  import opened Digits

  const PlayAmount: int := 5000
  const Pending: string := "pending"
  const Successful: string := "successful"
  const Failed: string := "failed"

  /** The gateway's reply as stored in `flutterResp`: absent on records the
      webhook created, `null` in demo mode, or the gateway's JSON, kept as text
      and never interpreted. */
  datatype GatewayData = Absent | Null | Json(text: string)

  /** One session record. Records created by a webhook have no `createdAt`. */
  datatype Session = Session(status: string, winner: Option<string>, createdAt: Option<nat>, flutterResp: GatewayData)

  type Sessions = map<string, Session>

  /** How the payment-initiation step turned out: no secret key configured
      (demo mode), the gateway answered (`ok` is `resp.ok`), or the call threw. */
  datatype Gateway = Demo | Answered(ok: bool, data: string) | Threw

  /** Webhook body: a nested `data` object and the flat manual fields. */
  datatype WebhookData = WebhookData(txRef: Option<string>, status: Option<string>)
  datatype WebhookPayload = WebhookPayload(data: Option<WebhookData>, txRef: Option<string>, status: Option<string>)

  /** The replies of all routes, each with its HTTP status code. */
  datatype Reply =
    | Initiated(txRef: string, flutter: Option<string>)
    | InvalidAmount
    | InitError(data: string)
    | ServerError
    | PaymentStatus(status: string)
    | NotFound
    | Received
    | NoTxRef
    | Simulated(txRef: string, winner: string)
    | NotConfirmed
    | WinnerIs(number: Option<string>)
  {
    /** The HTTP status: 200 exactly for the replies that report success,
        400 for a rejected request, 403 for an unconfirmed payment, 404 for an
        unknown reference and 500 for a thrown gateway call. */
    function Code(): (c: nat)
      ensures c == 200 <==> Initiated? || PaymentStatus? || Received? || Simulated? || WinnerIs?
      ensures c == 400 <==> InvalidAmount? || InitError? || NoTxRef?
      ensures c == 403 <==> NotConfirmed?
      ensures c == 404 <==> NotFound?
      ensures c == 500 <==> ServerError?
    {
      match this
      case Initiated(_, _) => 200
      case InvalidAmount => 400
      case InitError(_) => 400
      case ServerError => 500
      case PaymentStatus(_) => 200
      case NotFound => 404
      case Received => 200
      case NoTxRef => 400
      case Simulated(_, _) => 200
      case NotConfirmed => 403
      case WinnerIs(_) => 200
    }
  }

  /** The invariant the routes keep: a session whose status is "successful"
      holds a winner, and every winner is a 10-digit decimal string. */
  ghost predicate WellFormed(m: Sessions) {
    forall t :: t in m ==> RecordOk(m[t])
  }

  ghost predicate RecordOk(e: Session) {
    (e.status == Successful ==> e.winner.Some?) &&
    (e.winner.Some? ==> |e.winner.value| == WinnerLength && AllDigits(e.winner.value))
  }

  /** Storing a well-formed record keeps the dictionary well formed. */
  lemma StoreKeepsWellFormed(m: Sessions, t: string, e: Session)
    ensures WellFormed(m) && RecordOk(e) ==> WellFormed(m[t := e])
  {
  }

  /** `Number(amount) || PLAY_AMOUNT`: a missing or zero amount counts as the fee. */
  function EffectiveAmount(amount: Option<int>): (a: int)
    ensures a == PlayAmount <==> amount.None? || amount.value == 0 || amount.value == PlayAmount
    ensures amount.Some? && amount.value != 0 ==> a == amount.value
  {
    if amount.None? || amount.value == 0 then PlayAmount else amount.value
  }

  /** POST /api/create-payment. `refTime` and `rand` are the clock reading and
      the random draw the reference is built from, `createdAt` the second clock
      reading stored on the record. */
  function CreatePayment(m: Sessions, amount: Option<int>, refTime: nat, rand: nat, createdAt: nat, gw: Gateway): (r: (Sessions, Reply))
    requires rand < 1000
    ensures EffectiveAmount(amount) != PlayAmount ==> r == (m, InvalidAmount)
    ensures !r.1.Initiated? ==> r.0 == m
    ensures r.1.Initiated? <==> EffectiveAmount(amount) == PlayAmount && (gw.Demo? || (gw.Answered? && gw.ok))
    ensures r.1.Initiated? ==>
      var t := r.1.txRef;
      t == TxRef(refTime, rand) && r.0.Keys == m.Keys + {t} &&
      r.0[t].status == Pending && r.0[t].winner.None? && r.0[t].createdAt == Some(createdAt) &&
      forall k :: k in m && k != t ==> r.0[k] == m[k]
    ensures r.1.Initiated? && gw.Demo? ==> r.0[r.1.txRef].flutterResp == Null && r.1.flutter == None
    ensures r.1.Initiated? && gw.Answered? ==>
      r.0[r.1.txRef].flutterResp == Json(gw.data) && r.1.flutter == Some(gw.data)
    ensures EffectiveAmount(amount) == PlayAmount && gw.Answered? && !gw.ok ==> r.1 == InitError(gw.data)
    ensures EffectiveAmount(amount) == PlayAmount && gw.Threw? ==> r.1 == ServerError
    ensures WellFormed(m) ==> WellFormed(r.0)
  {
    if EffectiveAmount(amount) != PlayAmount then (m, InvalidAmount)
    else
      var t := TxRef(refTime, rand);
      match gw
      case Demo => (m[t := Session(Pending, None, Some(createdAt), Null)], Initiated(t, None))
      case Answered(ok, data) =>
        if !ok then (m, InitError(data))
        else (m[t := Session(Pending, None, Some(createdAt), Json(data))], Initiated(t, Some(data)))
      case Threw => (m, ServerError)
  }

  /** GET /api/check-payment. */
  function CheckPayment(m: Sessions, tx: Option<string>): (r: Reply)
    ensures r == NotFound <==> !Truthy(tx) || tx.value !in m
    ensures r != NotFound ==> r == PaymentStatus(m[tx.value].status)
  {
    if !Truthy(tx) || tx.value !in m then NotFound else PaymentStatus(m[tx.value].status)
  }

  /** The status the nested webhook stores: exactly "successful" stays
      "successful", any other value or none at all becomes "failed". */
  function NestedStatus(status: Option<string>): (s: string)
    ensures s == Successful <==> status == Some(Successful)
    ensures s != Successful ==> s == Failed
  {
    if status == Some(Successful) then Successful else Failed
  }

  /** The status the flat manual webhook stores: `status || 'successful'`. */
  function FlatStatus(status: Option<string>): (s: string)
    ensures Truthy(status) ==> s == status.value
    ensures !Truthy(status) ==> s == Successful
  {
    if Truthy(status) then status.value else Successful
  }

  /** `sessions[t] = sessions[t] || {}`, then set the status to `s` and, when
      `s` is "successful" and the record has no winner yet, draw one from `n`. */
  function Confirm(m: Sessions, t: string, s: string, n: nat): (m': Sessions)
    requires n < WinnerBound
    ensures m'.Keys == m.Keys + {t}
    ensures forall k :: k in m && k != t ==> m'[k] == m[k]
    ensures m'[t].status == s
    ensures t in m ==> m'[t].createdAt == m[t].createdAt && m'[t].flutterResp == m[t].flutterResp
    ensures t !in m ==> m'[t].createdAt == None && m'[t].flutterResp == Absent
    ensures t in m && Truthy(m[t].winner) ==> m'[t].winner == m[t].winner
    ensures s == Successful && (t !in m || !Truthy(m[t].winner)) ==> m'[t].winner == Some(Generate10Digit(n))
    ensures s != Successful ==> m'[t].winner == if t in m then m[t].winner else None
    ensures WellFormed(m) ==> WellFormed(m')
  {
    var e := if t in m then m[t] else Session("", None, None, Absent);
    var e' := e.(status := s);
    var e'' := if s == Successful && !Truthy(e'.winner) then e'.(winner := Some(Generate10Digit(n))) else e';
    StoreKeepsWellFormed(m, t, e'');
    m[t := e'']
  }

  /** The reference a webhook is about, if any, and the status it stores:
      the nested `data.tx_ref` first, then the flat `tx_ref`. */
  function WebhookTarget(p: WebhookPayload): (r: Option<(string, string)>)
    ensures r.None? <==> !Truthy(NestedTxRef(p)) && !Truthy(p.txRef)
    ensures Truthy(NestedTxRef(p)) ==> r == Some((NestedTxRef(p).value, NestedStatus(p.data.value.status)))
    ensures !Truthy(NestedTxRef(p)) && Truthy(p.txRef) ==> r == Some((p.txRef.value, FlatStatus(p.status)))
  {
    var nested := NestedTxRef(p);
    if Truthy(nested) then Some((nested.value, NestedStatus(p.data.value.status)))
    else if Truthy(p.txRef) then Some((p.txRef.value, FlatStatus(p.status)))
    else None
  }

  /** `payload.data && payload.data.tx_ref`. */
  function NestedTxRef(p: WebhookPayload): (t: Option<string>)
    ensures Truthy(t) ==> p.data.Some?
  {
    if p.data.Some? then p.data.value.txRef else None
  }

  /** POST /api/webhook. `n` is the draw used if a winner is assigned. */
  function Webhook(m: Sessions, p: WebhookPayload, n: nat): (r: (Sessions, Reply))
    requires n < WinnerBound
    ensures r.1 == NoTxRef <==> WebhookTarget(p).None?
    ensures r.1 == NoTxRef ==> r.0 == m
    ensures r.1 != NoTxRef ==> r.1 == Received
    ensures forall k :: k in m && Truthy(m[k].winner) ==> k in r.0 && r.0[k].winner == m[k].winner
    ensures r.1 == Received ==>
      var (t, s) := WebhookTarget(p).value;
      r.0.Keys == m.Keys + {t} && r.0[t].status == s && (s == Successful ==> r.0[t].winner.Some?) &&
      forall k :: k in m && k != t ==> r.0[k] == m[k]
    ensures WellFormed(m) ==> WellFormed(r.0)
  {
    match WebhookTarget(p)
    case None => (m, NoTxRef)
    case Some((t, s)) => (Confirm(m, t, s, n), Received)
  }

  /** POST /api/admin/simulate-success: mark a known session successful and
      overwrite its winner with a fresh draw `n`. */
  function SimulateSuccess(m: Sessions, tx: Option<string>, n: nat): (r: (Sessions, Reply))
    requires n < WinnerBound
    ensures r.1 == NotFound <==> !Truthy(tx) || tx.value !in m
    ensures r.1 == NotFound ==> r.0 == m
    ensures r.1 != NotFound ==>
      var t := tx.value;
      r.1 == Simulated(t, Generate10Digit(n)) && r.0.Keys == m.Keys &&
      r.0[t] == m[t].(status := Successful, winner := Some(r.1.winner)) &&
      forall k :: k in m && k != t ==> r.0[k] == m[k]
    ensures WellFormed(m) ==> WellFormed(r.0)
  {
    if !Truthy(tx) || tx.value !in m then (m, NotFound)
    else
      var t := tx.value;
      var w := Generate10Digit(n);
      StoreKeepsWellFormed(m, t, m[t].(status := Successful, winner := Some(w)));
      (m[t := m[t].(status := Successful, winner := Some(w))], Simulated(t, w))
  }

  /** GET /api/get-winner: the winner is disclosed only for a session whose
      status is exactly "successful". */
  function GetWinner(m: Sessions, tx: Option<string>): (r: Reply)
    ensures r == NotFound <==> !Truthy(tx) || tx.value !in m
    ensures r == NotConfirmed <==> Truthy(tx) && tx.value in m && m[tx.value].status != Successful
    ensures r.WinnerIs? <==> Truthy(tx) && tx.value in m && m[tx.value].status == Successful
    ensures r.WinnerIs? ==> r.number == m[tx.value].winner
    ensures r.WinnerIs? && WellFormed(m) ==> r.number.Some? && |r.number.value| == WinnerLength
  {
    if !Truthy(tx) || tx.value !in m then NotFound
    else if m[tx.value].status != Successful then NotConfirmed
    else WinnerIs(m[tx.value].winner)
  }
}
