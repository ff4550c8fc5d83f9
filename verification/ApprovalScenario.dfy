/** Runs of the prompt that do happen: an approval the desktop accepts, and a newer request lost to a put-back. */
module ApprovalScenario {
  import opened PairingTypes
  import opened PinCooldown
  import opened AppSession
  import opened ApprovalSlot
  import opened ApprovalSafety
  import opened ApprovalExchange
  import RW = ReplayWindow

  ghost predicate Reachable(s: Sys) {
    exists states, events :: Run(states, events) && states[|events|] == s
  }

  lemma Then(s: Sys, e: Event, t: Sys)
    requires Reachable(s) && Step(s, e, t)
    ensures Reachable(t)
  {
    var states, events :| Run(states, events) && states[|events|] == s;
    var states', events' := states + [t], events + [e];
    forall k | 0 <= k < |events'| ensures Step(states'[k], events'[k], states'[k + 1]) {
      if k < |events| {
        assert Step(states[k], events[k], states[k + 1]);
      }
    }
    assert Run(states', events') && states'[|events'|] == t;
  }

  const PHONE_APP := NEW_APP.(generation := 1, foreground := true, secrets := Some(5), unlockedAt := Some(0))

  const READ := Request(5, 1, 1234, Read, None, true, 0)

  const ADMITTED := PendingRequest(READ, Identity(1, 0, 1, 0))

  /** The app is opened and unlocked, and a request for an entry is admitted. */
  lemma RequestAdmitted() returns (s: Sys)
    ensures Reachable(s)
    ensures s == BOOTED.(app := PHONE_APP, keys := {5}, recent := map[1 := 0], slot := Some(ADMITTED),
                         instances := map[0 := ADMITTED], lasting := {0})
  {
    assert Run([BOOTED], []) && [BOOTED][0] == BOOTED;
    var s0 := BOOTED.(keys := {5});
    Then(BOOTED, KeysChange({5}), s0);
    var s1 := s0.(app := NEW_APP.(foreground := true));
    Then(s0, AppCalled(SetForeground(true)), s1);
    var s2 := s1.(app := PHONE_APP);
    Then(s1, AppCalled(CompleteUnlock(0, 5, 0)), s2);
    assert RW.Retained(map[], 0) == map[];
    s := s2.(recent := map[1 := 0], slot := Some(ADMITTED), instances := map[0 := ADMITTED], lasting := {0});
    Then(s2, Admits(READ, 0), s);
  }

  /** It is shown, and its PIN is about to be judged. */
  lemma RequestShown() returns (s: Sys)
    ensures Reachable(s) && s.slot == Some(ADMITTED) && s.tasks == map[7 := Equipped(ADMITTED.identity, KindFor(Read), 5)]
    ensures s.app == PHONE_APP && s.keys == {5} && s.now == 0 && s.sent == [] && s.signed == {} && s.lasting == {0}
    ensures s.verified == {}
  {
    var s0 := RequestAdmitted();
    var s1 := s0.(tasks := map[7 := Captured(ADMITTED.identity, KindFor(Read))]);
    Then(s0, Captures(7), s1);
    s := s1.(tasks := map[7 := Equipped(ADMITTED.identity, KindFor(Read), 5)]);
    Then(s1, Equips(7), s);
  }

  /** The right PIN is entered and the request taken. */
  lemma RequestTaken() returns (s: Sys)
    ensures Reachable(s) && s.slot.None? && s.tasks == map[7 := Approving(ADMITTED, 5, 0, true)]
    ensures s.app == PHONE_APP && s.keys == {5} && s.now == 0 && s.sent == [] && s.signed == {}
  {
    var s2 := RequestShown();
    var s3 := s2.(tasks := map[7 := Judged(ADMITTED.identity, KindFor(Read), 5, true)],
                  verified := {PinCheck(0, KindFor(Read), 5)});
    Then(s2, Judges(7, Verified), s3);
    s := s3.(slot := None, tasks := map[7 := Approving(ADMITTED, 5, 0, true)]);
    Then(s3, Takes(7), s);
  }

  /** From the taken request to its response, with the share of whatever generation is in memory. */
  lemma ShareCopied(s: Sys, g: Gen) returns (t: Sys)
    requires Reachable(s) && s.tasks == map[7 := Approving(ADMITTED, 5, 0, true)] && s.now == 0
    requires s.app.foreground && s.app.secrets == Some(g)
    ensures Reachable(t) && t == s.(tasks := map[7 := Signing(ADMITTED, 5, 0, true, Some(g), g == 5)])
  {
    var s1 := s.(tasks := map[7 := Sharing(ADMITTED, 5, 0, true, Some(g), g == 5)]);
    Then(s, Shares(7), s1);
    t := s1.(tasks := map[7 := Signing(ADMITTED, 5, 0, true, Some(g), g == 5)]);
    Then(s1, Confirms(7), t);
  }

  lemma ResponseSent(s: Sys, g: Gen) returns (t: Sys, response: Response)
    requires Reachable(s) && s.tasks == map[7 := Approving(ADMITTED, 5, 0, true)] && s.now == 0
    requires s.app.foreground && s.app.secrets == Some(g) && 5 in s.keys && s.sent == [] && s.signed == {}
    ensures Reachable(t) && t.sent == [Sent(0, true, 5, 0, true, Some(g), g == 5)]
    ensures ValidateResponse(t.signed, 5, READ, response, 0) == Approved(Some(g))
  {
    var s2 := ShareCopied(s, g);
    var body := Body(5, 1, 1234, Read, true, Some(g), 0);
    t := Without(s2, 7).(signed := {Signature(5, READ, body)}, sent := [Sent(0, true, 5, 0, true, Some(g), g == 5)]);
    Then(s2, Signs(7, Accepted, 0), t);
    response := Response(body, Signature(5, READ, body));
  }

  /** The response is signed, and the desktop accepts it with the share it asked for. */
  lemma ApprovalHappens() returns (s: Sys, response: Response)
    ensures Reachable(s) && |s.sent| == 1 && s.sent[0].approved && s.sent[0].kept
    ensures ValidateResponse(s.signed, 5, READ, response, 0) == Approved(Some(5))
  {
    var taken := RequestTaken();
    s, response := ResponseSent(taken, 5);
  }

  /**
   Another generation is set up, and a lock and an unlock with its secrets come before the copy; the old key survives.
   Then a desktop that waits for the old generation accepts, with the other one's share.
   */
  lemma ShareOfAnotherGeneration() returns (s: Sys, response: Response)
    ensures Reachable(s) && |s.sent| == 1 && s.sent[0].approved && !s.sent[0].kept
    ensures ValidateResponse(s.signed, 5, READ, response, 0) == Approved(Some(6))
  {
    var taken := RequestTaken();
    var rekeyed := taken.(keys := {5, 6});
    Then(taken, KeysChange({5, 6}), rekeyed);
    var locked := rekeyed.(app := Locked(PHONE_APP), lasting := {}, rewritten := false);
    Then(rekeyed, AppCalled(Lock), locked);
    var unlocked := locked.(app := Unlocked(Locked(PHONE_APP), 6, 0));
    Then(locked, AppCalled(CompleteUnlock(2, 6, 0)), unlocked);
    s, response := ResponseSent(unlocked, 6);
  }

  const NEWER := PendingRequest(READ.(id := 2), Identity(2, 1, 1, 0))

  /** A denial by a wrong id holds the request while a newer one is admitted. */
  lemma NewerRequestAdmitted() returns (s: Sys)
    ensures Reachable(s) && s.slot == Some(NEWER) && s.tasks == map[8 := PuttingBack(ADMITTED)]
    ensures s.instances == map[0 := ADMITTED, 1 := NEWER] && s.sent == []
  {
    var s0 := RequestAdmitted();
    var s1 := s0.(slot := None, tasks := map[8 := PuttingBack(ADMITTED)]);
    Then(s0, Denies(8, 99, 5), s1);
    assert RW.Retained(map[1 := 0], 0) == map[1 := 0];
    s := s1.(recent := map[1 := 0, 2 := 0], slot := Some(NEWER), instances := map[0 := ADMITTED, 1 := NEWER], lasting := {0, 1});
    Then(s1, Admits(NEWER.request, 1), s);
  }

  /** Then it is put back over the newer one, which is lost. */
  lemma NewerRequestLost() returns (s: Sys)
    ensures Reachable(s) && s.slot == Some(ADMITTED) && s.tasks == map[] && s.sent == []
    ensures Lost(s, 1) && s.instances[1] == NEWER
  {
    var s2 := NewerRequestAdmitted();
    s := s2.(slot := Some(ADMITTED), tasks := map[]);
    assert s2.tasks - {8} == map[];
    Then(s2, PutsBack(8), s);
  }
}
