/** Registering and claiming notifications (`registerAndClaim` in
    src/mobile-money/mobile-money-webhook.service.ts): one content per event identifier, and how exclusive a
    claim is. */
module Webhooks {
  import opened Basics
  import opened WebhookCodec

  datatype Processing = Received | Claimed | Processed | Failed

  datatype Notification = Notification(payload: Payload, status: Processing, updatedAt: nat)

  const STALE_CLAIM_MS := 300_000

  predicate Expired(n: Notification, now: nat) { now > n.updatedAt + STALE_CLAIM_MS }

  /** What a handler that has read the notification decides to do with it. */
  predicate MayClaim(n: Notification, now: nat) {
    n.status != Processed && (n.status == Claimed ==> Expired(n, now))
  }

  datatype ClaimError = EventConflict

  predicate SameNotification(a: Payload, b: Payload) {
    a.aggregatorReference == b.aggregatorReference && CanonicalPayload(a) == CanonicalPayload(b)
  }

  class Inbox {
    var events: map<string, Notification>
    var now: nat

    constructor ()
      ensures events == map[]
    {
      events, now := map[], 0;
    }

    /** The notification a delivery of p reads: the known one, or its own, just stored. */
    function Seen(p: Payload): Notification
      reads this
    {
      if p.eventId in events then events[p.eventId] else Notification(p, Received, now)
    }

    /** `registerAndClaim`: a new identifier is stored; a known one must carry the same content. What is neither
        processed nor held is claimed, by an update guarded by the status that was read: `between` is what other
        handlers make of the notification from that reading to the update, and the delivery stands aside if they
        have changed its status. */
    method RegisterAndClaim(p: Payload, between: Notification -> Notification) returns (r: Result<bool, ClaimError>)
      modifies this`events
      ensures r.Err? <==> p.eventId in old(events) && !SameNotification(old(events)[p.eventId].payload, p)
      ensures r.Err? ==> events == old(events)
      ensures r.Err?
              <==> p.eventId in old(events)
                   && var known := old(events)[p.eventId].payload;
                      known.(failureReason := None) != p.(failureReason := None)
                      || known.failureReason.GetOr("") != p.failureReason.GetOr("")
      ensures r.Ok? ==>
                var seen := if p.eventId in old(events) then old(events)[p.eventId] else Notification(p, Received, now);
                var free := seen.status in {Received, Failed}
                            || (seen.status == Claimed && now > seen.updatedAt + 300_000);
                var same := between(seen).status == seen.status;
                (r.value <==> free && same)
                && events == if !free then old(events)
                             else old(events)[p.eventId :=
                                  if same then between(seen).(status := Claimed, updatedAt := now) else between(seen)]
      ensures r.Ok? ==>
                var seen := old(Seen(p));
                (r.value <==> MayClaim(seen, now) && between(seen).status == seen.status)
                && if MayClaim(seen, now) then
                     var d := Next(Desk(now, between(seen), map[0 := seen], {}), Claim(0));
                     events == old(events)[p.eventId := d.event] && (r.value <==> 0 in d.holders)
                   else events == old(events)
    {
      if p.eventId !in events {
        events := events[p.eventId := Notification(p, Received, now)];
      } else {
        var known := events[p.eventId];
        SameContent(known.payload, p);
        if known.payload.aggregatorReference != p.aggregatorReference
           || CanonicalPayload(known.payload) != CanonicalPayload(p) {
          return Err(EventConflict);
        }
      }
      var event := events[p.eventId];
      if event.status == Processed {
        return Ok(false);
      }
      if event.status == Claimed && now <= event.updatedAt + STALE_CLAIM_MS {
        return Ok(false);
      }
      events := events[p.eventId := between(event)];
      if events[p.eventId].status != event.status {
        return Ok(false);
      }
      events := events[p.eventId := events[p.eventId].(status := Claimed, updatedAt := now)];
      r := Ok(true);
    }
  }

  /** ONE CONTENT PER IDENTIFIER. A second notification under a known identifier is accepted if and only if it
      says the same thing: every signed field is equal, an empty failure reason counting as none. */
  lemma SameContent(a: Payload, b: Payload)
    ensures SameNotification(a, b) <==>
              a.(failureReason := None) == b.(failureReason := None)
                && a.failureReason.GetOr("") == b.failureReason.GetOr("")
  {
    CanonicalInjective(a, b);
  }

  // ---------------------------------------------------------------------------------------------
  // Handlers at the same time
  // ---------------------------------------------------------------------------------------------

  /** One notification, the handlers that have read it, and those that hold it. */
  datatype Desk = Desk(now: nat, event: Notification, readers: map<nat, Notification>, holders: set<nat>)

  datatype Step = Tick(d: nat) | Read(p: nat) | Claim(p: nat) | Finish(p: nat, ok: bool) | Crash(p: nat)

  predicate Enabled(d: Desk, s: Step) {
    match s
    case Tick(_) => true
    case Read(p) => p !in d.readers && p !in d.holders
    case Claim(p) => p in d.readers
    case Finish(p, _) => p in d.holders
    case Crash(_) => true
  }

  /** The claim is an update guarded by the status that was read. */
  function Next(d: Desk, s: Step): Desk
    requires Enabled(d, s)
  {
    match s
    case Tick(t) => d.(now := d.now + t)
    case Read(p) => d.(readers := d.readers[p := d.event])
    case Claim(p) =>
      var n := d.readers[p];
      if MayClaim(n, d.now) && d.event.status == n.status then
        d.(event := d.event.(status := Claimed, updatedAt := d.now), readers := d.readers - {p},
           holders := d.holders + {p})
      else d.(readers := d.readers - {p})
    case Finish(p, ok) =>
      d.(event := d.event.(status := if ok then Processed else Failed, updatedAt := d.now), holders := d.holders - {p})
    case Crash(p) => d.(readers := d.readers - {p}, holders := d.holders - {p})
  }

  /** Nobody takes over an expired claim. */
  predicate NoTakeover(d: Desk, s: Step) {
    s.Claim? && s.p in d.readers && d.readers[s.p].status == Claimed ==> !Expired(d.readers[s.p], d.now)
  }

  function Exec(d: Desk, steps: seq<Step>): Option<Desk>
    decreases |steps|
  {
    if steps == [] then Some(d) else if Enabled(d, steps[0]) then Exec(Next(d, steps[0]), steps[1..]) else None
  }

  ghost predicate WithoutTakeover(d: Desk, steps: seq<Step>)
    decreases |steps|
  {
    steps == [] || (Enabled(d, steps[0]) && NoTakeover(d, steps[0]) && WithoutTakeover(Next(d, steps[0]), steps[1..]))
  }

  /** WHO GETS THE NOTIFICATION. A delivery that reads it and claims it with nobody in between holds it if and only if
      it was received and not yet handled, or its handling failed, or it has been claimed for more than five minutes. */
  lemma FreshClaim(d: Desk, p: nat)
    requires p !in d.readers && p !in d.holders
    ensures var x := Exec(d, [Read(p)] + ([Claim(p)] + []));
            x.Some?
            && (p in x.value.holders
                <==> d.event.status == Received || d.event.status == Failed
                     || (d.event.status == Claimed && d.now > d.event.updatedAt + 300_000))
            && (p in x.value.holders ==> x.value.event == Notification(d.event.payload, Claimed, d.now))
            && (p !in x.value.holders ==> x.value.event == d.event)
  {
    ExecStep(d, Read(p), [Claim(p)] + []);
    ExecStep(Next(d, Read(p)), Claim(p), []);
  }

  /** A holder means a claimed notification, and there is one holder. */
  predicate Exclusive(d: Desk) {
    (d.holders != {} ==> d.event.status == Claimed) && forall p, q :: p in d.holders && q in d.holders ==> p == q
  }

  /** CLAIMS ARE EXCLUSIVE. For any number of deliveries of one notification, in any interleaving and with crashes,
      as long as no expired claim is taken over there is at most one handler at a time. */
  lemma {:induction false} ClaimsAreExclusive(d: Desk, steps: seq<Step>)
    requires Exclusive(d) && WithoutTakeover(d, steps)
    ensures Exec(d, steps).Some? && Exclusive(Exec(d, steps).value)
    decreases |steps|
  {
    if steps != [] {
      ClaimsAreExclusive(Next(d, steps[0]), steps[1..]);
    }
  }

  /** An expired claim is taken over while a handler still holds the notification. */
  predicate Overtakes(d: Desk, s: Step) {
    s.Claim? && s.p in d.readers && d.holders != {}
    && (var n := d.readers[s.p]; n.status == Claimed && Expired(n, d.now) && d.event.status == Claimed)
  }

  predicate Overtaken(d: Desk, steps: seq<Step>)
    decreases |steps|
  {
    steps != [] && Enabled(d, steps[0]) && (Overtakes(d, steps[0]) || Overtaken(Next(d, steps[0]), steps[1..]))
  }

  ghost predicate HeldTwice(d: Desk) { exists p, q :: p in d.holders && q in d.holders && p != q }

  /** At some point of the run two handlers hold the notification. */
  ghost predicate Shared(d: Desk, steps: seq<Step>)
    decreases |steps|
  {
    HeldTwice(d) || (steps != [] && Enabled(d, steps[0]) && Shared(Next(d, steps[0]), steps[1..]))
  }

  /** A handler reads, then holds: never both. */
  ghost predicate Calm(d: Desk) { Exclusive(d) && forall p :: p in d.holders ==> p !in d.readers }

  lemma StepShares(d: Desk, s: Step)
    requires Calm(d) && Enabled(d, s)
    ensures if Overtakes(d, s) then HeldTwice(Next(d, s)) else Calm(Next(d, s))
  {
    if Overtakes(d, s) {
      var q :| q in d.holders;
      var e := Next(d, s);
      assert q in e.holders && s.p in e.holders && q != s.p;
    }
  }

  /** WHEN A CLAIM IS SHARED. In every interleaving of deliveries and crashes, two handlers hold the notification at
      once if and only if some handler takes over an expired claim while another one is still at work on it. */
  lemma {:induction false} SharedIff(d: Desk, steps: seq<Step>)
    requires Calm(d) && Exec(d, steps).Some?
    ensures Shared(d, steps) <==> Overtaken(d, steps)
    decreases |steps|
  {
    if steps != [] {
      StepShares(d, steps[0]);
      if !Overtakes(d, steps[0]) {
        SharedIff(Next(d, steps[0]), steps[1..]);
      } else {
        assert Shared(Next(d, steps[0]), steps[1..]);
      }
    }
  }

  function TakeoverRun(): seq<Step> {
    [Read(0)] + ([Claim(0)] + ([Crash(0)] + ([Tick(STALE_CLAIM_MS + 1)]
    + ([Read(1)] + ([Read(2)] + ([Claim(1)] + ([Claim(2)] + [])))))))
  }

  lemma ExecStep(d: Desk, s: Step, rest: seq<Step>)
    requires Enabled(d, s)
    ensures Exec(d, [s] + rest) == Exec(Next(d, s), rest)
  {
    assert ([s] + rest)[1..] == rest;
  }

  /** TAKEOVERS ARE NOT. After a crash, two handlers that both read the expired claim both take it: the guard of the
      update is the status, which the first one leaves unchanged. */
  lemma TakeoverIsShared(p: Payload)
    ensures var x := Exec(Desk(0, Notification(p, Received, 0), map[], {}), TakeoverRun());
            x.Some? && x.value.holders == {1, 2}
  {
    var t := STALE_CLAIM_MS + 1;
    var d0 := Desk(0, Notification(p, Received, 0), map[], {});
    var held := Notification(p, Claimed, 0);
    var d3 := Desk(0, held, map[], {});
    var r8: seq<Step> := [Claim(2)] + [];
    var r5 := [Read(1)] + ([Read(2)] + ([Claim(1)] + r8));
    FirstHolder(p, [Tick(t)] + r5);
    ExecStep(d3, Tick(t), r5);
    var d4 := Desk(t, held, map[], {});
    ExecStep(d4, Read(1), [Read(2)] + ([Claim(1)] + r8));
    var d5 := Desk(t, held, map[1 := held], {});
    ExecStep(d5, Read(2), [Claim(1)] + r8);
    var d6 := Desk(t, held, map[1 := held, 2 := held], {});
    assert Next(d5, Read(2)) == d6;
    ExecStep(d6, Claim(1), r8);
    var d7 := Next(d6, Claim(1));
    ExecStep(d7, Claim(2), []);
  }

  lemma FirstHolder(p: Payload, rest: seq<Step>)
    ensures Exec(Desk(0, Notification(p, Received, 0), map[], {}), [Read(0)] + ([Claim(0)] + ([Crash(0)] + rest)))
            == Exec(Desk(0, Notification(p, Claimed, 0), map[], {}), rest)
  {
    var n := Notification(p, Received, 0);
    var d0, d1 := Desk(0, n, map[], {}), Desk(0, n, map[0 := n], {});
    ExecStep(d0, Read(0), [Claim(0)] + ([Crash(0)] + rest));
    assert Next(d0, Read(0)) == d1;
    ExecStep(d1, Claim(0), [Crash(0)] + rest);
    var d2 := Next(d1, Claim(0));
    ExecStep(d2, Crash(0), rest);
    assert Next(d2, Crash(0)) == Desk(0, Notification(p, Claimed, 0), map[], {});
  }
}
