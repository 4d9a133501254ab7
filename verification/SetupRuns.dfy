/** From a beacon heard close to a subscription, and how every failure on the way, or after it,
    ends the attempt. */
module SetupRuns {
  import opened Bytes
  import opened Filters
  import opened Protocol
  import opened Trace
  import opened TransferClient
  import opened AttemptRuns
  import P = ProximityRuns

  predicate Ended(c: Client) {
    c.st.phase.Idle? && !c.st.running && c.connection == INVALID
  }

  /** Nothing but the closing of the connection is left to wait for. */
  predicate Ending(c: Client) {
    c.st.phase.Closing? || c.st.phase.StoppingScan? || Ended(c)
  }

  lemma FailedEnds(c: Client, env: Env)
    ensures Ending(Failed(c, env))
  {}

  /** An attempt begins exactly with none under way, the radio ready and no STOP; a repeated one only
      from rest, after a RETRY, with a beacon that was close. */
  lemma BeginsWhen(c: Client, again: bool, stop: bool, env: Env)
    requires Bounded(c)
    ensures var d := Deliver(c, Begin(again, stop), env);
      && (c.st.running ==> d == c)
      && (!c.st.running ==> (d.st.running <==>
            !stop && (again ==> c.st.closeConfirmed && c.st.phase.Idle? && c.st.result == Retry)))
      && (!d.st.running ==> d == c)
  {
    hide FilesBounded, NearBounded;
  }

  /** A failed query and an ERROR of the beacon end the attempt. */
  lemma ErrorsEnd(c: Client, handle: Handle, value: seq<Byte>, env: Env)
    requires Bounded(c) && !Deaf(c, handle) && value != [] && value[0] == 0x7F
    ensures Ending(Deliver(c, QueryDone(handle, false), env)) && Ending(Deliver(c, Notify(handle, true, value), env))
  {
    hide Failed, FilesBounded, NearBounded;
    FailedEnds(c, env);
  }

  /** So does a search that found nothing. */
  lemma NothingFoundEnds(c: Client, env: Env)
    requires Bounded(c) && !c.st.abort
    requires (c.st.phase.DiscoverService? && !c.st.serviceFound) || (c.st.phase.DiscoverCharacteristic? && !c.st.characteristicFound)
    ensures Ending(Deliver(c, QueryDone(c.connection, true), env))
  {
    FailedStops(c, env);
    hide Failed, FilesBounded, NearBounded;
    FailedEnds(c, env);
    P.OverTakesNone(Failed(c, env), env) by { BoundedFailed(c, env); }
    TakesNothing(Failed(c, env), env);
  }

  lemma FailedStops(c: Client, env: Env)
    requires c.st.phase.DiscoverService? || c.st.phase.DiscoverCharacteristic?
    ensures Failed(c, env).st.phase.Closing? || Failed(c, env).st.phase.Idle?
    ensures Failed(c, env).pending == []
  {}

  lemma TakesNothing(c: Client, env: Env)
    requires c.pending == [] && Bounded(c)
    ensures TakePending(c, env) == c
  {
    hide FilesBounded, NearBounded;
  }

  /** The end of its own connection, a connection that cannot be made and a scan command that
      fails end the attempt at once. */
  lemma RadioEnds(c: Client, env: Env)
    requires Bounded(c)
    ensures Ended(Deliver(c, Disconnection(c.connection), env))
    ensures c.st.phase.Connecting? ==> Ended(Deliver(c, ConnectionDone(false, INVALID), env))
    ensures Ended(Deliver(c, ScanDone(false), env)) && Deliver(c, ScanDone(false), env).st.result == Fatal
  {
    hide FilesBounded, NearBounded;
  }

  /** A connection of another device means nothing. */
  lemma OthersMeanNothing(c: Client, handle: Handle, ok: bool, value: seq<Byte>, env: Env)
    requires Bounded(c) && handle != c.connection
    ensures Deliver(c, Disconnection(handle), env) == c && Deliver(c, QueryDone(handle, ok), env) == c
    ensures Deliver(c, Notify(handle, true, value), env) == c && Deliver(c, Notify(c.connection, false, value), env) == c
  {
    hide FilesBounded, NearBounded;
  }

  // And when nothing fails.

  function Setup(handle: Handle): seq<RadioEvent> {
    [ScanDone(true), ConnectionDone(true, handle), ServiceFound(handle), QueryDone(handle, true), CharacteristicFound(handle),
     QueryDone(handle, true)]
  }

  function Deliveries(c: Client, events: seq<RadioEvent>): (d: Client)
    requires Bounded(c)
    ensures Bounded(d)
    decreases |events|
  {
    if events == [] then c
    else
      BoundedDeliver(c, events[0], Willing);
      Deliveries(Deliver(c, events[0], Willing), events[1..])
  }

  predicate At(c: Client, phase: Phase, handle: Handle) {
    Bounded(c) && c.st.phase == phase && !c.st.abort && c.connection == handle && c.pending == []
  }

  lemma Connects(c: Client, handle: Handle)
    requires At(c, StoppingForConnect, c.connection) && handle != INVALID
    ensures var d := Deliver(c, ScanDone(true), Willing);
      At(d, Connecting, c.connection) && At(Deliver(d, ConnectionDone(true, handle), Willing), DiscoverService, handle)
  {
    hide FilesBounded, NearBounded;
  }

  lemma FindsService(c: Client, handle: Handle)
    requires At(c, DiscoverService, handle)
    ensures var d := Deliver(c, ServiceFound(handle), Willing);
      At(d, DiscoverService, handle) && At(Deliver(d, QueryDone(handle, true), Willing), DiscoverCharacteristic, handle)
  {
    hide FilesBounded, NearBounded;
  }

  lemma FindsCharacteristic(c: Client, handle: Handle)
    requires At(c, DiscoverCharacteristic, handle)
    ensures var d := Deliver(c, CharacteristicFound(handle), Willing);
      && At(d, DiscoverCharacteristic, handle)
      && At(Deliver(d, QueryDone(handle, true), Willing), EnableNotifications, handle)
      && Deliver(d, QueryDone(handle, true), Willing).st.listening
  {
    hide FilesBounded, NearBounded;
  }

  /** Once the scan has been stopped for a close beacon, six events without a failure lead to the
      subscription, from where a whole transfer completes. */
  lemma SetupSubscribes(c: Client, handle: Handle)
    requires At(c, StoppingForConnect, c.connection) && handle != INVALID
    ensures var d := Deliveries(c, Setup(handle));
      At(d, EnableNotifications, handle) && d.st.listening
  {
    hide Deliver, Bounded;
    Connects(c, handle);
    var c1 := Deliver(c, ScanDone(true), Willing);
    var c2 := Deliver(c1, ConnectionDone(true, handle), Willing);
    FindsService(c2, handle);
    var c3 := Deliver(c2, ServiceFound(handle), Willing);
    var c4 := Deliver(c3, QueryDone(handle, true), Willing);
    FindsCharacteristic(c4, handle);
    SixDeliveries(c, ScanDone(true), ConnectionDone(true, handle), ServiceFound(handle), QueryDone(handle, true), CharacteristicFound(handle),
                  QueryDone(handle, true));
  }

  lemma SixDeliveries(c: Client, a: RadioEvent, b: RadioEvent, d: RadioEvent, e: RadioEvent, f: RadioEvent, g: RadioEvent)
    requires Bounded(c)
    ensures Deliveries(c, [a, b, d, e, f, g]) ==
      Deliveries(Deliveries(Deliveries(Deliveries(Deliveries(Deliveries(c, [a]), [b]), [d]), [e]), [f]), [g])
  {
    hide Deliver, Bounded;
    OneThenMore(c, a, [b, d, e, f, g]);
    var c1 := Deliveries(c, [a]);
    OneThenMore(c1, b, [d, e, f, g]);
    var c2 := Deliveries(c1, [b]);
    OneThenMore(c2, d, [e, f, g]);
    var c3 := Deliveries(c2, [d]);
    OneThenMore(c3, e, [f, g]);
    OneThenMore(Deliveries(c3, [e]), f, [g]);
  }

  lemma OneThenMore(c: Client, e: RadioEvent, more: seq<RadioEvent>)
    requires Bounded(c)
    ensures Deliveries(c, [e] + more) == Deliveries(Deliveries(c, [e]), more)
  {
    hide Deliver, Bounded;
    assert ([e] + more)[1..] == more && [e][1..] == [];
  }
}
