/** The browser side of a play: poll check-payment until the payment is
    confirmed, fails or the two-minute deadline passes, then fetch the winner
    and split it into the ten display slots. The responses are those that
    arrived before the deadline, in order. */
module Client {
  import opened Js
  import opened Digits

  const SlotCount: nat := 10

  /** One check-payment response: not ok (`!check.ok`), or ok with the
      `status` field of its body. */
  datatype CheckResponse = NotOk | Ok(status: Option<string>)

  predicate IsSuccess(r: CheckResponse) {
    r.Ok? && r.status == Some("successful")
  }

  predicate IsFailure(r: CheckResponse) {
    r.Ok? && r.status == Some("failed")
  }

  /** A response that ends the polling loop. */
  predicate Stops(r: CheckResponse) {
    IsSuccess(r) || IsFailure(r)
  }

  /** Payment counts as confirmed when an ok "successful" arrives before any
      ok "failed". */
  ghost predicate ConfirmedBy(rs: seq<CheckResponse>) {
    exists i :: 0 <= i < |rs| && IsSuccess(rs[i]) && forall j :: 0 <= j < i ==> !IsFailure(rs[j])
  }

  /** The position of the first response that ends the loop, or |rs| if none does. */
  function FirstStop(rs: seq<CheckResponse>): (k: nat)
    ensures k <= |rs|
    ensures forall j :: 0 <= j < k ==> !Stops(rs[j])
    ensures k < |rs| ==> Stops(rs[k])
  {
    if rs == [] then 0
    else if Stops(rs[0]) then 0
    else 1 + FirstStop(rs[1..])
  }

  /** The loop's verdict is decided by the first stopping response alone. */
  lemma ConfirmedByFirstStop(rs: seq<CheckResponse>)
    ensures ConfirmedBy(rs) <==> FirstStop(rs) < |rs| && IsSuccess(rs[FirstStop(rs)])
  {
    var k := FirstStop(rs);
    if ConfirmedBy(rs) {
      var i :| 0 <= i < |rs| && IsSuccess(rs[i]) && forall j :: 0 <= j < i ==> !IsFailure(rs[j]);
      assert k <= i;
      if k < i {
        assert !IsFailure(rs[k]);
      }
    }
  }

  /** An ok "successful" ends the wait confirmed, whatever would follow it. */
  lemma SuccessConfirms(r: CheckResponse, rs: seq<CheckResponse>)
    requires IsSuccess(r)
    ensures ConfirmedBy([r] + rs) && FirstStop([r] + rs) == 0
  {
    assert IsSuccess(([r] + rs)[0]);
  }

  /** An ok "failed" ends the wait unconfirmed, whatever would follow it. */
  lemma FailureRefutes(r: CheckResponse, rs: seq<CheckResponse>)
    requires IsFailure(r)
    ensures !ConfirmedBy([r] + rs) && FirstStop([r] + rs) == 0
  {
    ConfirmedByFirstStop([r] + rs);
  }

  /** A response that neither confirms nor fails (not ok, or any other
      status such as "pending") does not change the verdict. */
  lemma NonStoppingIgnored(r: CheckResponse, rs: seq<CheckResponse>)
    requires !Stops(r)
    ensures ConfirmedBy([r] + rs) <==> ConfirmedBy(rs)
  {
    var rs' := [r] + rs;
    if ConfirmedBy(rs') {
      var i :| 0 <= i < |rs'| && IsSuccess(rs'[i]) && forall j :: 0 <= j < i ==> !IsFailure(rs'[j]);
      assert i >= 1 && IsSuccess(rs[i - 1]);
      forall j | 0 <= j < i - 1
        ensures !IsFailure(rs[j])
      {
        assert rs[j] == rs'[j + 1];
      }
    }
    if ConfirmedBy(rs) {
      var i :| 0 <= i < |rs| && IsSuccess(rs[i]) && forall j :: 0 <= j < i ==> !IsFailure(rs[j]);
      assert IsSuccess(rs'[i + 1]);
      forall j | 0 <= j < i + 1
        ensures !IsFailure(rs'[j])
      {
        if j > 0 {
          assert rs'[j] == rs[j - 1];
        }
      }
    }
  }

  /** The polling loop: returns whether payment was confirmed and how many
      responses it consumed before it broke off or ran out of time. */
  method Poll(rs: seq<CheckResponse>) returns (confirmed: bool, polls: nat)
    ensures confirmed <==> ConfirmedBy(rs)
    ensures polls == if FirstStop(rs) < |rs| then FirstStop(rs) + 1 else |rs|
    ensures confirmed ==> IsSuccess(rs[polls - 1])
    ensures !confirmed && polls < |rs| ==> IsFailure(rs[polls - 1])
  {
    confirmed := false;
    polls := 0;
    while polls < |rs|
      invariant polls <= |rs|
      invariant forall j :: 0 <= j < polls ==> !Stops(rs[j])
      invariant !confirmed
    {
      var check := rs[polls];
      polls := polls + 1;
      if !check.Ok? {
        // not ok: keep polling
      } else if check.status == Some("successful") {
        confirmed := true;
        break;
      } else if check.status == Some("failed") {
        break;
      }
    }
    ConfirmedByFirstStop(rs);
  }

  /** `s.split('')`: one one-character string per character. */
  function Split(s: string): (parts: seq<string>)
    ensures |parts| == |s|
    ensures forall i :: 0 <= i < |s| ==> parts[i] == [s[i]]
  {
    seq(|s|, i requires 0 <= i < |s| => [s[i]])
  }

  /** `parts.join('')`: joining one-character slots gives the string whose
      i-th character is slot i. */
  function Join(parts: seq<string>): (s: string)
    ensures (forall i :: 0 <= i < |parts| ==> |parts[i]| == 1) ==>
      |s| == |parts| && forall i :: 0 <= i < |parts| ==> s[i] == parts[i][0]
  {
    if parts == [] then "" else parts[0] + Join(parts[1..])
  }

  lemma {:induction false} JoinSplit(s: string)
    ensures Join(Split(s)) == s
  {
    if s != [] {
      assert Split(s)[1..] == Split(s[1..]);
      JoinSplit(s[1..]);
    }
  }

  /** `String(winner)`: an absent winner reads as "undefined". */
  function JsString(w: Option<string>): (s: string)
    ensures w.Some? ==> s == w.value
    ensures w.None? ==> s == "undefined"
  {
    if w.Some? then w.value else "undefined"
  }

  /** `String(winData.winner).padStart(SLOT_COUNT, '0').split('')`: a winner of at
      most ten characters fills exactly the ten slots, one character each, and
      joining the slots gives back the padded winner. */
  function SlotDigits(w: string): (digits: seq<string>)
    ensures |w| <= SlotCount ==> |digits| == SlotCount
    ensures forall i :: 0 <= i < |digits| ==> |digits[i]| == 1
    ensures Join(digits) == PadStart(w, SlotCount, '0')
  {
    JoinSplit(PadStart(w, SlotCount, '0'));
    Split(PadStart(w, SlotCount, '0'))
  }

  /** The get-winner response: `winResp.ok` and the fields of its body. */
  datatype WinnerResponse = WinnerResponse(ok: bool, winner: Option<string>, message: Option<string>)

  /** How a play ends after payment was requested: not confirmed in time or
      failed, the winner request failed with a message, or the winner is shown. */
  datatype Outcome = Unconfirmed | WinnerError(message: string) | Announced(digits: seq<string>, shown: string)

  /** Lines 73-104 of the play: poll, and only on confirmation fetch and show
      the winner. `requested` tells whether get-winner was called at all;
      `winResp` is what it would answer. */
  method AwaitAndPick(rs: seq<CheckResponse>, winResp: WinnerResponse) returns (outcome: Outcome, requested: bool)
    ensures requested <==> ConfirmedBy(rs)
    ensures outcome.Unconfirmed? <==> !ConfirmedBy(rs)
    ensures requested && !winResp.ok ==>
      outcome == WinnerError(if Truthy(winResp.message) then winResp.message.value else "Could not fetch winner")
    ensures requested && winResp.ok ==>
      outcome.Announced? && outcome.shown == PadStart(JsString(winResp.winner), SlotCount, '0')
    ensures outcome.Announced? ==>
      outcome.digits == SlotDigits(JsString(winResp.winner)) && outcome.shown == Join(outcome.digits)
    ensures outcome.Announced? && |JsString(winResp.winner)| <= SlotCount ==>
      |outcome.digits| == SlotCount && |outcome.shown| == SlotCount
  {
    var confirmed, polls := Poll(rs);
    if !confirmed {
      return Unconfirmed, false;
    }
    requested := true;
    if !winResp.ok {
      var message := if Truthy(winResp.message) then winResp.message.value else "Could not fetch winner";
      return WinnerError(message), requested;
    }
    var digits := SlotDigits(JsString(winResp.winner));
    outcome := Announced(digits, Join(digits));
  }
}
