/** The server's module-level `sessions` dictionary and its routes. Each route
    updates the dictionary in place, step by step as the handler does; its
    contract ties the new dictionary and the reply to the route's transition
    in Handlers. */
module App {
  import opened Js
  import opened Digits
  import opened Handlers

  class SessionStore {
    var sessions: Sessions

    ghost predicate Valid()
      reads this
    {
      WellFormed(sessions)
    }

    /** `const sessions = {}`. */
    constructor ()
      ensures Valid() && sessions == map[]
    {
      sessions := map[];
    }

    method CreatePayment(amount: Option<int>, refTime: nat, rand: nat, createdAt: nat, gw: Gateway) returns (reply: Reply)
      requires Valid() && rand < 1000
      modifies this
      ensures Valid()
      ensures (sessions, reply) == Handlers.CreatePayment(old(sessions), amount, refTime, rand, createdAt, gw)
    {
      var a := EffectiveAmount(amount);
      if a != PlayAmount {
        return InvalidAmount;
      }
      var txRef := TxRef(refTime, rand);
      match gw {
        case Demo =>
          sessions := sessions[txRef := Session(Pending, None, Some(createdAt), Null)];
          return Initiated(txRef, None);
        case Answered(ok, data) =>
          if !ok {
            return InitError(data);
          }
          sessions := sessions[txRef := Session(Pending, None, Some(createdAt), Json(data))];
          return Initiated(txRef, Some(data));
        case Threw =>
          return ServerError;
      }
    }

    method CheckPayment(tx: Option<string>) returns (reply: Reply)
      ensures reply == Handlers.CheckPayment(sessions, tx)
      ensures reply == NotFound <==> !Truthy(tx) || tx.value !in sessions
      ensures reply != NotFound ==> reply == PaymentStatus(sessions[tx.value].status)
    {
      if !Truthy(tx) || tx.value !in sessions {
        return NotFound;
      }
      return PaymentStatus(sessions[tx.value].status);
    }

    method Webhook(payload: WebhookPayload, n: nat) returns (reply: Reply)
      requires Valid() && n < WinnerBound
      modifies this
      ensures Valid()
      ensures (sessions, reply) == Handlers.Webhook(old(sessions), payload, n)
    {
      var txRef := NestedTxRef(payload);
      var status := if payload.data.Some? then payload.data.value.status else None;
      if !Truthy(txRef) {
        if Truthy(payload.txRef) {
          var t := payload.txRef.value;
          var s := FlatStatus(payload.status);
          Touch(t, s, n);
          return Received;
        }
        return NoTxRef;
      }
      Touch(txRef.value, NestedStatus(status), n);
      return Received;
    }

    /** The shared tail of both webhook shapes: `sessions[t] = sessions[t] || {}`,
        set the status, and draw a winner only if none is there yet. The record
        is changed in place in the source; nothing can observe it between these
        steps, so the model edits a copy and stores it once. */
    method Touch(t: string, s: string, n: nat)
      requires Valid() && n < WinnerBound
      modifies this
      ensures Valid()
      ensures sessions == Confirm(old(sessions), t, s, n)
    {
      var entry := if t in sessions then sessions[t] else Session("", None, None, Absent);
      entry := entry.(status := s);
      if s == Successful && !Truthy(entry.winner) {
        entry := entry.(winner := Some(Generate10Digit(n)));
      }
      assert sessions[t := entry] == Confirm(sessions, t, s, n);
      sessions := sessions[t := entry];
    }

    method SimulateSuccess(tx: Option<string>, n: nat) returns (reply: Reply)
      requires Valid() && n < WinnerBound
      modifies this
      ensures Valid()
      ensures (sessions, reply) == Handlers.SimulateSuccess(old(sessions), tx, n)
    {
      if !Truthy(tx) || tx.value !in sessions {
        return NotFound;
      }
      var t := tx.value;
      ghost var m := sessions;
      sessions := sessions[t := sessions[t].(status := Successful)];
      StoreKeepsWellFormed(sessions, t, sessions[t].(winner := Some(Generate10Digit(n))));
      sessions := sessions[t := sessions[t].(winner := Some(Generate10Digit(n)))];
      assert sessions == m[t := m[t].(status := Successful, winner := Some(Generate10Digit(n)))];
      return Simulated(t, sessions[t].winner.value);
    }

    method GetWinner(tx: Option<string>) returns (reply: Reply)
      requires Valid()
      ensures reply == Handlers.GetWinner(sessions, tx)
      ensures reply == NotFound <==> !Truthy(tx) || tx.value !in sessions
      ensures reply == NotConfirmed <==> Truthy(tx) && tx.value in sessions && sessions[tx.value].status != Successful
      ensures reply.WinnerIs? <==> Truthy(tx) && tx.value in sessions && sessions[tx.value].status == Successful
      ensures reply.WinnerIs? ==> reply.number == sessions[tx.value].winner && reply.number.Some?
      ensures reply.WinnerIs? ==> |reply.number.value| == WinnerLength && AllDigits(reply.number.value)
    {
      if !Truthy(tx) || tx.value !in sessions {
        return NotFound;
      }
      if sessions[tx.value].status != Successful {
        return NotConfirmed;
      }
      return WinnerIs(sessions[tx.value].winner);
    }
  }
}
