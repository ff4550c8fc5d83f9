/** When the desktop accepts an approval, and what the phone must then have done. */
module ApprovalExchange {
  import opened PairingTypes
  import opened PinCooldown
  import opened ApprovalSlot
  import opened ApprovalSafety
  import P = PhoneStore
  import RW = ReplayWindow

  /** A message from the network: anything at all, until its signature verifies. */
  datatype Response = Response(body: Body, signature: Signature)

  datatype Reason =
    | NoAnswer
    | GenerationMismatch
    | UnknownRequest
    | SignatureMismatch
    | TimestampSkew
    | CodeMismatch
    | ActionMismatch
    | Denied

  datatype Acceptance = Approved(share: Option<Gen>) | Rejected(reason: Reason)

  /** signed holds every signature ever made with a phone's approval key. */
  predicate Verifies(signed: set<Signature>, key: Gen, request: Request, response: Response) {
    response.signature == Signature(key, request, response.body) && response.signature in signed
  }

  predicate FreshExchange(request: Request, response: Response, now: U64) {
    RW.FreshTimestamp(request.timestamp, now) && RW.FreshTimestamp(response.body.timestamp, now)
  }

  /** The check of a one-shot request. */
  function ValidateResponse(signed: set<Signature>, pairing: Gen, request: Request, response: Response, now: U64): Acceptance {
    var body := response.body;
    if request.pairing != pairing || body.pairing != pairing then Rejected(GenerationMismatch)
    else if body.requestId != request.id then Rejected(UnknownRequest)
    else if !Verifies(signed, pairing, request, response) then Rejected(SignatureMismatch)
    else if !FreshExchange(request, response, now) then Rejected(TimestampSkew)
    else if body.code != request.code then Rejected(CodeMismatch)
    else if body.action != request.action then Rejected(ActionMismatch)
    else if !body.approved then Rejected(Denied)
    else Approved(body.share)
  }

  // ----- the path over an open session

  /** What the session remembers of a request it is waiting for. */
  datatype Awaited = Awaited(code: nat, action: Action)

  /** The check over an open session: the response is looked up by its own id, which nothing compares with the request's. */
  function SessionVerdict(
      pending: map<RequestId, Awaited>, signed: set<Signature>, pairing: Gen, request: Request, response: Response, now: U64): Acceptance
  {
    var body := response.body;
    if request.pairing != pairing || body.pairing != pairing then Rejected(GenerationMismatch)
    else if body.requestId !in pending then Rejected(UnknownRequest)
    else if !Verifies(signed, pairing, request, response) then Rejected(SignatureMismatch)
    else if !FreshExchange(request, response, now) then Rejected(TimestampSkew)
    else if body.code != pending[body.requestId].code then Rejected(CodeMismatch)
    else if body.action != pending[body.requestId].action then Rejected(ActionMismatch)
    else if !body.approved then Rejected(Denied)
    else Approved(body.share)
  }

  class SessionApprovals {
    var pendingRequests: map<RequestId, Awaited>

    constructor ()
      ensures pendingRequests == map[]
    {
      pendingRequests := map[];
    }

    method Register(request: Request)
      modifies this
      ensures pendingRequests == old(pendingRequests)[request.id := Awaited(request.code, request.action)]
    {
      pendingRequests := pendingRequests[request.id := Awaited(request.code, request.action)];
    }

    /** Handles what came back, if anything did; the request is no longer awaited afterwards. */
    method Finish(signed: set<Signature>, pairing: Gen, request: Request, answer: Option<Response>, now: U64) returns (r: Acceptance)
      modifies this
      ensures r == if answer.None? then Rejected(NoAnswer)
                   else SessionVerdict(old(pendingRequests), signed, pairing, request, answer.value, now)
      ensures request.id !in pendingRequests
      ensures pendingRequests == old(pendingRequests) - {request.id}
           || (answer.Some? && pendingRequests == old(pendingRequests) - {request.id, answer.value.body.requestId})
    {
      r := Rejected(NoAnswer);
      if answer.Some? {
        r := Accept(signed, pairing, request, answer.value, now);
      }
      pendingRequests := pendingRequests - {request.id};
    }

    method Accept(signed: set<Signature>, pairing: Gen, request: Request, response: Response, now: U64) returns (r: Acceptance)
      modifies this
      ensures r == SessionVerdict(old(pendingRequests), signed, pairing, request, response, now)
      ensures pendingRequests == if r == Rejected(GenerationMismatch) then old(pendingRequests)
                                 else old(pendingRequests) - {response.body.requestId}
    {
      var body := response.body;
      if request.pairing != pairing || body.pairing != pairing {
        return Rejected(GenerationMismatch);
      }
      if body.requestId !in pendingRequests {
        return Rejected(UnknownRequest);
      }
      var awaited := pendingRequests[body.requestId];
      pendingRequests := pendingRequests - {body.requestId};
      if !Verifies(signed, pairing, request, response) {
        return Rejected(SignatureMismatch);
      }
      if !FreshExchange(request, response, now) {
        return Rejected(TimestampSkew);
      }
      if body.code != awaited.code {
        return Rejected(CodeMismatch);
      }
      if body.action != awaited.action {
        return Rejected(ActionMismatch);
      }
      r := if body.approved then Approved(body.share) else Rejected(Denied);
    }
  }

  /** The id comparison that the session path lacks follows from the signed payload: both paths accept the same. */
  lemma {:induction false} SessionMatchesOneShot(
      states: seq<Sys>, events: seq<Event>, k: nat,
      pending: map<RequestId, Awaited>, pairing: Gen, request: Request, response: Response, now: U64)
    requires Run(states, events) && k < |states|
    requires request.id in pending ==> pending[request.id] == Awaited(request.code, request.action)
    ensures var overSession := SessionVerdict(pending, states[k].signed, pairing, request, response, now);
            var oneShot := ValidateResponse(states[k].signed, pairing, request, response, now);
            && (overSession.Approved? <==> oneShot.Approved? && request.id in pending)
            && (overSession.Approved? ==> overSession == oneShot && response.body.requestId == request.id)
  {
    RunKeepsInv(states, events, k);
    if Verifies(states[k].signed, pairing, request, response) {
      assert BuiltFor(response.signature);
    }
  }

  /** With a signature that no phone makes the session path does accept an answer to another request it awaits. */
  lemma SessionNeedsAuthenticSignatures(a: Request, b: Request, now: U64)
    requires a.id != b.id && a.pairing == b.pairing && a.timestamp == b.timestamp == now
    ensures var body := Body(a.pairing, b.id, b.code, b.action, true, None, now);
            var signature := Signature(a.pairing, a, body);
            var pending := map[a.id := Awaited(a.code, a.action), b.id := Awaited(b.code, b.action)];
            SessionVerdict(pending, {signature}, a.pairing, a, Response(body, signature), now) == Approved(None)
  {
  }

  /**
   Exactly what a response needs to be accepted: the signature of the pairing's key over it and over this very request,
   approval, and both dates within five minutes. Given that, the checks of id, code and action never fail.
   */
  lemma {:induction false} AcceptedIff(
      states: seq<Sys>, events: seq<Event>, k: nat, pairing: Gen, request: Request, response: Response, now: U64)
    requires Run(states, events) && k < |states|
    ensures var signed := states[k].signed;
            var verdict := ValidateResponse(signed, pairing, request, response, now);
            && (verdict.Approved? <==>
                  && request.pairing == pairing && response.body.approved
                  && response.signature == Signature(pairing, request, response.body) && response.signature in signed
                  && request.timestamp <= now + 300000 && now <= request.timestamp + 300000
                  && response.body.timestamp <= now + 300000 && now <= response.body.timestamp + 300000)
            && (verdict.Approved? ==> verdict.share == response.body.share)
  {
    RunKeepsInv(states, events, k);
    RW.FreshTimestampIff(request.timestamp, now);
    RW.FreshTimestampIff(response.body.timestamp, now);
    if Verifies(states[k].signed, pairing, request, response) {
      assert BuiltFor(response.signature);
    }
  }

  // ----- end to end

  /** The phone carried out its approval of exactly this request, with the desktop's key. */
  ghost predicate ApprovedOnPhone(s: Sys, pairing: Gen, request: Request, n: nat) {
    && n < |s.sent| && s.sent[n].approved && s.sent[n].key == pairing
    && s.sent[n].instance in s.instances && s.instances[s.sent[n].instance].request == request
    && (request.action in {Unlock, List, Read} ==> PinCheck(s.sent[n].instance, P.FourDigit, pairing) in s.verified)
    && (request.action in {Create, Update, Delete, Passwd, Pair} ==> PinCheck(s.sent[n].instance, P.SixDigit, pairing) in s.verified)
  }

  /** What an accepted answer rests on, in any state of the phone that its invariant allows. */
  lemma {:induction false} AcceptanceRestsOn(s: Sys, pairing: Gen, request: Request, response: Response, now: U64) returns (n: nat)
    requires Inv(s) && ValidateResponse(s.signed, pairing, request, response, now).Approved?
    ensures ApprovedOnPhone(s, pairing, request, n)
    ensures ValidateResponse(s.signed, pairing, request, response, now).share == s.sent[n].share
    ensures s.sent[n].share.Some? <==> request.shareRequested
  {
    assert BuiltFor(response.signature);
    n :| MadeAt(s, response.signature, n);
  }

  /**
   Whatever the network drops, reorders, replays or makes up: an accepted approval was executed on the phone for
   that request, field by field, after a right PIN of the kind it requires; a share comes exactly when asked for.
   */
  lemma {:induction false} AcceptedWasApproved(
      states: seq<Sys>, events: seq<Event>, k: nat, pairing: Gen, request: Request, response: Response, now: U64)
    returns (n: nat)
    requires Run(states, events) && k < |states|
    requires ValidateResponse(states[k].signed, pairing, request, response, now).Approved?
    ensures ApprovedOnPhone(states[k], pairing, request, n)
    ensures ValidateResponse(states[k].signed, pairing, request, response, now).share == states[k].sent[n].share
    ensures ValidateResponse(states[k].signed, pairing, request, response, now).share.Some? <==> request.shareRequested
    ensures request.timestamp <= now + 300000 && now <= request.timestamp + 300000
    ensures response.body.timestamp <= now + 300000 && now <= response.body.timestamp + 300000
  {
    RunKeepsInv(states, events, k);
    RW.FreshTimestampIff(request.timestamp, now);
    RW.FreshTimestampIff(response.body.timestamp, now);
    n := AcceptanceRestsOn(states[k], pairing, request, response, now);
  }

  /** The share that comes is the pairing's own if and only if the secrets whose PIN was checked were kept until it was copied. */
  lemma {:induction false} AcceptedShareIsOwnIff(
      states: seq<Sys>, events: seq<Event>, k: nat, pairing: Gen, request: Request, response: Response, now: U64)
    returns (n: nat)
    requires Run(states, events) && k < |states| && request.shareRequested
    requires ValidateResponse(states[k].signed, pairing, request, response, now).Approved?
    ensures ApprovedOnPhone(states[k], pairing, request, n)
    ensures ValidateResponse(states[k].signed, pairing, request, response, now) == Approved(Some(pairing)) <==> states[k].sent[n].kept
  {
    RunKeepsInv(states, events, k);
    n := AcceptedWasApproved(states, events, k, pairing, request, response, now);
  }

  /** The same over an open session, where the request is awaited with its own code and action. */
  lemma {:induction false} SessionAcceptedWasApproved(
      states: seq<Sys>, events: seq<Event>, k: nat,
      pending: map<RequestId, Awaited>, pairing: Gen, request: Request, response: Response, now: U64)
    returns (n: nat)
    requires Run(states, events) && k < |states|
    requires request.id in pending ==> pending[request.id] == Awaited(request.code, request.action)
    requires SessionVerdict(pending, states[k].signed, pairing, request, response, now).Approved?
    ensures ApprovedOnPhone(states[k], pairing, request, n)
    ensures response.body.requestId == request.id
    ensures SessionVerdict(pending, states[k].signed, pairing, request, response, now).share.Some? <==> request.shareRequested
    ensures request.timestamp <= now + 300000 && now <= request.timestamp + 300000
    ensures response.body.timestamp <= now + 300000 && now <= response.body.timestamp + 300000
  {
    RunKeepsInv(states, events, k);
    SessionMatchesOneShot(states, events, k, pending, pairing, request, response, now);
    n := AcceptedWasApproved(states, events, k, pairing, request, response, now);
  }
}
