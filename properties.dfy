/** Properties of the routes that relate several requests: what redelivery,
    an override or a colliding reference does to the `sessions` dictionary. */
module Properties {
  import opened Js
  import opened Digits
  import opened Handlers

  /** Any webhook delivered twice has the effect of delivering it once: the
      second delivery stores the same status and keeps the winner the first
      one left, whatever it would have drawn. */
  lemma WebhookIdempotent(m: Sessions, p: WebhookPayload, n1: nat, n2: nat)
    requires n1 < WinnerBound && n2 < WinnerBound
    ensures Webhook(Webhook(m, p, n1).0, p, n2) == Webhook(m, p, n1)
  {
    var (m1, r1) := Webhook(m, p, n1);
    if WebhookTarget(p).Some? {
      var (t, s) := WebhookTarget(p).value;
      assert m1 == Confirm(m, t, s, n1);
      var m2 := Confirm(m1, t, s, n2);
      if s == Successful {
        assert Truthy(m1[t].winner);
      }
      assert m2[t] == m1[t];
      assert m2 == m1;
    }
  }

  /** The nested webhook does not treat "successful" as final: a later
      delivery with any other status marks a successful session "failed",
      keeps its winner, and get-winner stops disclosing it. */
  lemma NestedFailureAfterSuccess(m: Sessions, t: string, st: Option<string>, n: nat)
    requires n < WinnerBound
    requires t != "" && t in m && m[t].status == Successful && Truthy(m[t].winner)
    requires st != Some(Successful)
    ensures var m' := Webhook(m, WebhookPayload(Some(WebhookData(Some(t), st)), None, None), n).0;
      m'[t].status == Failed && m'[t].winner == m[t].winner &&
      GetWinner(m', Some(t)) == NotConfirmed
  {
  }

  /** The flat manual webhook stores whatever status it is given, so it can
      move a successful session back to "pending" and leave the winner on it. */
  lemma FlatWebhookReopens(m: Sessions, t: string, n: nat)
    requires n < WinnerBound
    requires t != "" && t in m && m[t].status == Successful && Truthy(m[t].winner)
    ensures var m' := Webhook(m, WebhookPayload(None, Some(t), Some(Pending)), n).0;
      m'[t].status == Pending && m'[t].winner == m[t].winner &&
      CheckPayment(m', Some(t)) == PaymentStatus(Pending)
  {
  }

  /** simulate-success always draws a new winner: for every session that
      already has a winner there is a draw that replaces it with another. */
  lemma SimulateReplacesWinner(m: Sessions, t: string)
    requires t != "" && t in m && m[t].winner.Some?
    requires |m[t].winner.value| == WinnerLength && AllDigits(m[t].winner.value)
    ensures exists n :: 0 <= n < WinnerBound && SimulateSuccess(m, Some(t), n).0[t].winner != m[t].winner
  {
    var w := m[t].winner.value;
    var n := if Value(w) == 0 then 1 else 0;
    Generate10DigitValue(n);
    assert Value(Generate10Digit(n)) == n != Value(w);
    assert SimulateSuccess(m, Some(t), n).0[t].winner == Some(Generate10Digit(n));
  }

  /** create-payment does not look for an existing record: a reference that
      collides with a session replaces it by a fresh pending record, which
      drops that session's winner. */
  lemma CreateOverwrites(m: Sessions, refTime: nat, rand: nat, createdAt: nat)
    requires rand < 1000
    requires TxRef(refTime, rand) in m
    ensures var m' := CreatePayment(m, None, refTime, rand, createdAt, Demo).0;
      m'.Keys == m.Keys && m'[TxRef(refTime, rand)].winner.None? &&
      m'[TxRef(refTime, rand)].status == Pending
  {
  }

  /** check-payment and get-winner agree: the winner is disclosed exactly
      when check-payment reports "successful". */
  lemma WinnerIffSuccessful(m: Sessions, tx: Option<string>)
    ensures GetWinner(m, tx).WinnerIs? <==> CheckPayment(m, tx) == PaymentStatus(Successful)
  {
  }

  /** A payment from creation to winner: the new session is pending and its
      winner is withheld; a successful nested webhook assigns a 10-digit winner;
      delivering the same webhook again leaves that winner as it was. */
  lemma CreateConfirmRedeliver(m: Sessions, refTime: nat, rand: nat, createdAt: nat, n1: nat, n2: nat)
    requires WellFormed(m)
    requires rand < 1000 && n1 < WinnerBound && n2 < WinnerBound
    ensures
      var (m1, r1) := CreatePayment(m, Some(PlayAmount), refTime, rand, createdAt, Demo);
      var t := TxRef(refTime, rand);
      var p := WebhookPayload(Some(WebhookData(Some(t), Some(Successful))), None, None);
      var m2 := Webhook(m1, p, n1).0;
      var m3 := Webhook(m2, p, n2).0;
      r1 == Initiated(t, None) &&
      CheckPayment(m1, Some(t)) == PaymentStatus(Pending) &&
      GetWinner(m1, Some(t)) == NotConfirmed &&
      CheckPayment(m2, Some(t)) == PaymentStatus(Successful) &&
      GetWinner(m2, Some(t)) == WinnerIs(Some(Generate10Digit(n1))) &&
      GetWinner(m3, Some(t)) == WinnerIs(Some(Generate10Digit(n1)))
  {
    var (m1, r1) := CreatePayment(m, Some(PlayAmount), refTime, rand, createdAt, Demo);
    var t := TxRef(refTime, rand);
    var p := WebhookPayload(Some(WebhookData(Some(t), Some(Successful))), None, None);
    assert WebhookTarget(p) == Some((t, Successful));
    var m2 := Webhook(m1, p, n1).0;
    assert m2[t].winner == Some(Generate10Digit(n1));
    WebhookIdempotent(m1, p, n1, n2);
  }
}
