/** Freshness of requests: the timestamp window together with the bounded memory of request ids. */
module ReplayWindow {
  import opened PairingTypes
  import opened PinCooldown

  type RequestId = nat

  const MAX_SKEW: U64 := 300000
  const MEMORY: nat := 600000
  const MAX_REMEMBERED: nat := 4096

  /** Not more than MAX_SKEW before or after now, with subtraction that stops at zero. */
  predicate FreshTimestamp(timestamp: U64, now: U64) {
    SaturatingSub64(now, timestamp) <= MAX_SKEW && SaturatingSub64(timestamp, now) <= MAX_SKEW
  }

  lemma FreshTimestampIff(timestamp: U64, now: U64)
    ensures FreshTimestamp(timestamp, now) <==> timestamp <= now + 300000 && now <= timestamp + 300000
  {
  }

  /** The ids that still count at this time. */
  function Retained(recent: map<RequestId, U64>, now: U64): map<RequestId, U64> {
    map id | id in recent && SaturatingSub64(now, recent[id]) < MEMORY :: recent[id]
  }

  function Remembered(recent: map<RequestId, U64>, id: RequestId, now: U64): (map<RequestId, U64>, bool) {
    var kept := Retained(recent, now);
    if id in kept || |kept| >= MAX_REMEMBERED then (kept, false) else (kept[id := now], true)
  }

  class RequestMemory {
    var recent: map<RequestId, U64>

    constructor ()
      ensures recent == map[]
    {
      recent := map[];
    }

    /** Refuses an id seen within the memory span, and every id once the memory is full of such ones. */
    method Remember(id: RequestId, now: U64) returns (accepted: bool)
      modifies this
      ensures (recent, accepted) == Remembered(old(recent), id, now)
      ensures forall k :: k != id ==>
                (k in recent <==> k in old(recent) && now - old(recent)[k] < 600000) && (k in recent ==> recent[k] == old(recent)[k])
      ensures accepted ==> !(id in old(recent) && now - old(recent)[id] < 600000)
      ensures !(id in old(recent) && now - old(recent)[id] < 600000) && |old(recent)| < 4096 ==> accepted
      ensures accepted ==> id in recent && recent[id] == now
      ensures |old(recent)| <= MAX_REMEMBERED ==> |recent| <= MAX_REMEMBERED
    {
      RetainedIsSmaller(recent, now);
      recent := Retained(recent, now);
      if id in recent || |recent| >= MAX_REMEMBERED {
        return false;
      }
      recent := recent[id := now];
      accepted := true;
    }
  }

  lemma RetainedIsSmaller(recent: map<RequestId, U64>, now: U64)
    ensures |Retained(recent, now)| <= |recent|
  {
    SubsetIsSmaller(Retained(recent, now).Keys, recent.Keys);
    assert |recent.Keys| == |recent| && |Retained(recent, now).Keys| == |Retained(recent, now)|;
  }

  lemma {:induction false} SubsetIsSmaller(a: set<RequestId>, b: set<RequestId>)
    requires a <= b
    ensures |a| <= |b|
  {
    if a != {} {
      var x :| x in a;
      SubsetIsSmaller(a - {x}, b - {x});
    }
  }

  // ----- runs

  /** A request arrives; an occupied prompt refuses it before its id is looked at. */
  datatype Arrival = Arrival(id: RequestId, timestamp: U64, now: U64, promptFree: bool)

  function Admit(recent: map<RequestId, U64>, a: Arrival): (map<RequestId, U64>, bool) {
    if !FreshTimestamp(a.timestamp, a.now) || !a.promptFree then (recent, false) else Remembered(recent, a.id, a.now)
  }

  function MemoryAfter(arrivals: seq<Arrival>): map<RequestId, U64> {
    if arrivals == [] then map[] else Admit(MemoryAfter(arrivals[..|arrivals| - 1]), arrivals[|arrivals| - 1]).0
  }

  predicate Admitted(arrivals: seq<Arrival>, i: nat)
    requires i < |arrivals|
  {
    Admit(MemoryAfter(arrivals[..i]), arrivals[i]).1
  }

  predicate InOrder(arrivals: seq<Arrival>) {
    forall i, j :: 0 <= i <= j < |arrivals| ==> arrivals[i].now <= arrivals[j].now
  }

  /** The memory never holds more than its bound, and nothing from the future. */
  lemma {:induction false} MemoryIsBounded(arrivals: seq<Arrival>)
    requires InOrder(arrivals)
    ensures |MemoryAfter(arrivals)| <= MAX_REMEMBERED
    ensures forall id :: id in MemoryAfter(arrivals) ==> arrivals != [] && MemoryAfter(arrivals)[id] <= arrivals[|arrivals| - 1].now
  {
    if arrivals != [] {
      var before := arrivals[..|arrivals| - 1];
      MemoryIsBounded(before);
      RetainedIsSmaller(MemoryAfter(before), arrivals[|arrivals| - 1].now);
    }
  }

  /** An admitted id is remembered, with that or a later time, for the whole memory span: the bound never evicts it. */
  lemma {:induction false} AdmittedIsRemembered(arrivals: seq<Arrival>, i: nat, n: nat)
    requires InOrder(arrivals) && i < n <= |arrivals| && Admitted(arrivals, i)
    ensures var memory := MemoryAfter(arrivals[..n]);
            var id := arrivals[i].id;
            || (id in memory && memory[id] >= arrivals[i].now)
            || arrivals[n - 1].now - arrivals[i].now >= MEMORY
  {
    assert arrivals[..n][..n - 1] == arrivals[..n - 1];
    if n - 1 > i {
      AdmittedIsRemembered(arrivals, i, n - 1);
    }
  }

  /** Two requests with one id are admitted only a full memory span apart. */
  lemma {:induction false} SameIdApart(arrivals: seq<Arrival>, i: nat, j: nat)
    requires InOrder(arrivals) && i < j < |arrivals| && arrivals[i].id == arrivals[j].id
    requires Admitted(arrivals, i) && Admitted(arrivals, j)
    ensures arrivals[j].now - arrivals[i].now >= MEMORY
  {
    AdmittedIsRemembered(arrivals, i, j);
  }

  /** A replay, same id and same timestamp, is admitted only at the two very ends of the timestamp window. */
  lemma {:induction false} ReplayOnlyAtTheEnds(arrivals: seq<Arrival>, i: nat, j: nat)
    requires InOrder(arrivals) && i < j < |arrivals| && arrivals[i].id == arrivals[j].id
    requires arrivals[i].timestamp == arrivals[j].timestamp
    requires Admitted(arrivals, i) && Admitted(arrivals, j)
    ensures arrivals[i].now + MAX_SKEW == arrivals[i].timestamp && arrivals[j].now == arrivals[j].timestamp + MAX_SKEW
    ensures arrivals[j].now - arrivals[i].now == MEMORY
  {
    SameIdApart(arrivals, i, j);
    FreshTimestampIff(arrivals[i].timestamp, arrivals[i].now);
    FreshTimestampIff(arrivals[j].timestamp, arrivals[j].now);
  }

  /** So no request is admitted a third time. */
  lemma {:induction false} NeverThrice(arrivals: seq<Arrival>, i: nat, j: nat, k: nat)
    requires InOrder(arrivals) && i < j < k < |arrivals|
    requires arrivals[i].id == arrivals[j].id == arrivals[k].id
    requires arrivals[i].timestamp == arrivals[j].timestamp == arrivals[k].timestamp
    ensures !(Admitted(arrivals, i) && Admitted(arrivals, j) && Admitted(arrivals, k))
  {
    if Admitted(arrivals, i) && Admitted(arrivals, j) && Admitted(arrivals, k) {
      ReplayOnlyAtTheEnds(arrivals, i, j);
      ReplayOnlyAtTheEnds(arrivals, j, k);
    }
  }

  /** A remembered id was admitted at the time remembered. */
  lemma {:induction false} RememberedWasAdmitted(arrivals: seq<Arrival>, id: RequestId) returns (k: nat)
    requires id in MemoryAfter(arrivals)
    ensures k < |arrivals| && arrivals[k].id == id && arrivals[k].now == MemoryAfter(arrivals)[id] && Admitted(arrivals, k)
  {
    var n := |arrivals| - 1;
    var before := MemoryAfter(arrivals[..n]);
    if Admitted(arrivals, n) && arrivals[n].id == id {
      k := n;
    } else {
      assert id in before && MemoryAfter(arrivals)[id] == before[id];
      k := RememberedWasAdmitted(arrivals[..n], id);
      assert arrivals[..n][..k] == arrivals[..k];
    }
  }

  /** Between an admission of an id and the next one, the memory holds that admission's time or nothing for it. */
  lemma {:induction false} RememberedSince(arrivals: seq<Arrival>, i: nat, j: nat)
    requires InOrder(arrivals) && i < j < |arrivals| && Admitted(arrivals, i)
    requires forall k :: i < k < j && arrivals[k].id == arrivals[i].id ==> !Admitted(arrivals, k)
    ensures var memory := MemoryAfter(arrivals[..j]);
            arrivals[i].id in memory ==> memory[arrivals[i].id] <= arrivals[i].now
  {
    var memory := MemoryAfter(arrivals[..j]);
    if arrivals[i].id in memory {
      var k := RememberedWasAdmitted(arrivals[..j], arrivals[i].id);
      assert arrivals[..j][..k] == arrivals[..k];
      assert Admitted(arrivals, k);
    }
  }

  /**
   Exactly when the next replay of an admitted request gets in: the two lie at the two ends of the timestamp window, the
   prompt is free, and the memory is not full of ids that still count.
   */
  lemma {:induction false} ReplayAdmittedIff(arrivals: seq<Arrival>, i: nat, j: nat)
    requires InOrder(arrivals) && i < j < |arrivals| && arrivals[i].id == arrivals[j].id
    requires arrivals[i].timestamp == arrivals[j].timestamp && Admitted(arrivals, i)
    requires forall k :: i < k < j && arrivals[k].id == arrivals[i].id ==> !Admitted(arrivals, k)
    ensures Admitted(arrivals, j) <==>
              && arrivals[i].now + MAX_SKEW == arrivals[i].timestamp && arrivals[j].now == arrivals[j].timestamp + MAX_SKEW
              && arrivals[j].promptFree
              && |Retained(MemoryAfter(arrivals[..j]), arrivals[j].now)| < MAX_REMEMBERED
  {
    if Admitted(arrivals, j) {
      ReplayOnlyAtTheEnds(arrivals, i, j);
    }
    RememberedSince(arrivals, i, j);
    FreshTimestampIff(arrivals[j].timestamp, arrivals[j].now);
  }

  /** The ids admitted in the last ten minutes. */
  ghost function Live(arrivals: seq<Arrival>, now: U64): set<RequestId> {
    set i | 0 <= i < |arrivals| && Admitted(arrivals, i) && now < arrivals[i].now + 600000 :: arrivals[i].id
  }

  /** What the memory retains is exactly that: the bounded map is a window over the history. */
  lemma {:induction false} RetainedIsLive(arrivals: seq<Arrival>, now: U64)
    requires InOrder(arrivals) && forall i :: 0 <= i < |arrivals| ==> arrivals[i].now <= now
    ensures Retained(MemoryAfter(arrivals), now).Keys == Live(arrivals, now)
  {
    var memory := MemoryAfter(arrivals);
    forall id | id in Retained(memory, now) ensures id in Live(arrivals, now) {
      var k := RememberedWasAdmitted(arrivals, id);
      assert Admitted(arrivals, k);
    }
    forall id | id in Live(arrivals, now) ensures id in Retained(memory, now) {
      var i :| 0 <= i < |arrivals| && Admitted(arrivals, i) && now < arrivals[i].now + 600000 && arrivals[i].id == id;
      AdmittedIsRemembered(arrivals, i, |arrivals|);
      assert arrivals[..|arrivals|] == arrivals;
    }
  }

  /**
   Exactly when a request is admitted, in terms of the history alone: dated within five minutes, with the prompt free, its
   id not admitted in the last ten minutes, and fewer than 4096 ids admitted in them.
   */
  lemma {:induction false} AdmittedIff(arrivals: seq<Arrival>, j: nat)
    requires InOrder(arrivals) && j < |arrivals|
    ensures var a := arrivals[j];
            Admitted(arrivals, j) <==>
              && a.timestamp <= a.now + 300000 && a.now <= a.timestamp + 300000 && a.promptFree
              && (forall i :: 0 <= i < j && arrivals[i].id == a.id && Admitted(arrivals, i) ==> a.now >= arrivals[i].now + 600000)
              && |Live(arrivals[..j], a.now)| < 4096
  {
    var a, before := arrivals[j], arrivals[..j];
    FreshTimestampIff(a.timestamp, a.now);
    RetainedIsLive(before, a.now);
    var kept := Retained(MemoryAfter(before), a.now);
    assert |kept| == |kept.Keys|;
    forall i | 0 <= i < j ensures Admitted(before, i) == Admitted(arrivals, i) {
      assert before[..i] == arrivals[..i];
    }
    assert a.id in kept <==> exists i :: 0 <= i < j && arrivals[i].id == a.id && Admitted(arrivals, i) && a.now < arrivals[i].now + 600000;
  }

  /** The ends are reached: a request dated 300 s ahead can be replayed once, exactly 600 s later. */
  lemma ReplayAtTheEnds(id: RequestId)
    ensures var arrivals := [Arrival(id, 300000, 0, true), Arrival(id, 300000, 600000, true)];
            Admitted(arrivals, 0) && Admitted(arrivals, 1)
  {
    var arrivals := [Arrival(id, 300000, 0, true), Arrival(id, 300000, 600000, true)];
    assert arrivals[..0] == [];
    assert arrivals[..1][..0] == [];
    assert Retained(map[], 0) == map[];
    assert MemoryAfter(arrivals[..1]) == map[id := 0];
    assert Retained(map[id := 0], 600000) == map[];
  }
}
