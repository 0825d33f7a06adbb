/** The UDP client adapter: one client at a time behind four calls. */
module UdpAdapter {

  /** A library start gives a return code and a handle, which may be null. */
  datatype Handle = Null | Client(id: nat)
  datatype Started = Started(rc: int, handle: Handle)

  /** What the library has been asked to do, call by call. */
  datatype Event = DidStart(h: Handle) | DidStop(h: Handle) | DidJoin(h: Handle)

  /** The globals, and the library calls so far. */
  datatype Adapter = Adapter(running: bool, handle: Handle, events: seq<Event>)

  /** `argsOk` is the check of the host pointers and the ports. */
  datatype Call = Start(argsOk: bool, lib: Started) | Stop | Cleanup

  function Apply(a: Adapter, c: Call): Adapter {
    match c
    case Start(argsOk, lib) =>
      if a.running || !argsOk then a
      else if lib.rc != 0 then a.(handle := Null)
      else Adapter(true, lib.handle, a.events + [DidStart(lib.handle)])
    case Stop =>
      if a.running && a.handle.Client? then a.(events := a.events + [DidStop(a.handle)]) else a
    case Cleanup =>
      if a.handle.Client? then Adapter(false, Null, a.events + [DidJoin(a.handle)])
      else a.(running := false)
  }

  const IDLE := Adapter(false, Null, [])

  /** The adapter after a sequence of calls. */
  function Run(calls: seq<Call>): Adapter
    decreases |calls|
  {
    if calls == [] then IDLE else Apply(Run(calls[..|calls| - 1]), calls[|calls| - 1])
  }

  // ------------------------------------------------- how clients may be used

  /** Which client is live after some events, if they are in order at all. */
  datatype Live = Nobody | Only(h: Handle) | Disorder

  /** A client is started when none is live, stopped only while it is live, and
      joined once, which ends it. */
  function LiveStep(live: Live, e: Event): Live {
    match e
    case DidStart(h) => if live == Nobody && h.Client? then Only(h) else Disorder
    case DidStop(h) => if live == Only(h) then live else Disorder
    case DidJoin(h) => if live == Only(h) then Nobody else Disorder
  }

  function LiveAfter(events: seq<Event>): Live
    decreases |events|
  {
    if events == [] then Nobody
    else LiveStep(LiveAfter(events[..|events| - 1]), events[|events| - 1])
  }

  function Count(events: seq<Event>, p: Event -> bool): nat
    decreases |events|
  {
    if events == [] then 0
    else Count(events[..|events| - 1], p) + if p(events[|events| - 1]) then 1 else 0
  }

  function Starts(events: seq<Event>): nat { Count(events, (e: Event) => e.DidStart?) }

  function Stops(events: seq<Event>): nat { Count(events, (e: Event) => e.DidStop?) }

  function Joins(events: seq<Event>): nat { Count(events, (e: Event) => e.DidJoin?) }

  /** Events in order make as many joins as starts, but for the live client. */
  lemma {:induction false} OrderBalances(events: seq<Event>)
    requires LiveAfter(events) != Disorder
    ensures Starts(events) - Joins(events) == if LiveAfter(events) == Nobody then 0 else 1
    decreases |events|
  {
    if events != [] { OrderBalances(events[..|events| - 1]); }
  }

  /** The adapter says it is running exactly while it holds a handle, and that
      is the one live client of an orderly history. */
  ghost predicate Balanced(a: Adapter) {
    && (a.running <==> a.handle.Client?)
    && LiveAfter(a.events) == if a.running then Only(a.handle) else Nobody
  }

  /** The call starts the library successfully, and gets a handle for it. */
  predicate ReachesLibrary(a: Adapter, c: Call) { c.Start? && c.argsOk && !a.running && c.lib.rc == 0 }

  predicate YieldsHandle(a: Adapter, c: Call) { ReachesLibrary(a, c) ==> c.lib.handle.Client? }

  lemma LiveAppend(events: seq<Event>, e: Event)
    ensures LiveAfter(events + [e]) == LiveStep(LiveAfter(events), e)
  {
    assert (events + [e])[..|events|] == events;
  }

  lemma CallBalancesIff(a: Adapter, c: Call)
    requires Balanced(a)
    ensures Balanced(Apply(a, c)) <==> YieldsHandle(a, c)
  {
    match c
    case Start(_, lib) => LiveAppend(a.events, DidStart(lib.handle));
    case Stop => LiveAppend(a.events, DidStop(a.handle));
    case Cleanup => LiveAppend(a.events, DidJoin(a.handle));
  }

  lemma RunPrefix(calls: seq<Call>, k: nat)
    requires k < |calls|
    ensures Run(calls[..k + 1]) == Apply(Run(calls[..k]), calls[k])
  {
    assert calls[..k + 1][..k] == calls[..k];
  }

  lemma {:induction false} HonestPrefixBalances(calls: seq<Call>, k: nat)
    requires k <= |calls|
    requires forall j :: 0 <= j < k ==> YieldsHandle(Run(calls[..j]), calls[j])
    ensures Balanced(Run(calls[..k]))
    decreases k
  {
    if k > 0 {
      HonestPrefixBalances(calls, k - 1);
      RunPrefix(calls, k - 1);
      CallBalancesIff(Run(calls[..k - 1]), calls[k - 1]);
    }
  }

  /** Exactly when the adapter keeps its clients in order.  Over every sequence
      of calls, it is balanced after each of them if and only if every start
      that reaches the library and succeeds there yields a handle. */
  lemma BalancedThroughoutIff(calls: seq<Call>)
    ensures (forall k :: 0 <= k <= |calls| ==> Balanced(Run(calls[..k])))
            <==> (forall k :: 0 <= k < |calls| ==> YieldsHandle(Run(calls[..k]), calls[k]))
  {
    if forall k :: 0 <= k <= |calls| ==> Balanced(Run(calls[..k])) {
      forall k | 0 <= k < |calls| ensures YieldsHandle(Run(calls[..k]), calls[k]) {
        RunPrefix(calls, k);
        assert Balanced(Run(calls[..k + 1]));
        CallBalancesIff(Run(calls[..k]), calls[k]);
      }
    }
    if forall k :: 0 <= k < |calls| ==> YieldsHandle(Run(calls[..k]), calls[k]) {
      forall k | 0 <= k <= |calls| ensures Balanced(Run(calls[..k])) {
        HonestPrefixBalances(calls, k);
      }
    }
  }

  /** With such a library, over every sequence of calls: no client is started
      before the last one has been joined, none is joined twice, one is stopped
      only between its start and its join, and starts minus joins is 1 exactly
      while the adapter says it is running. */
  lemma RunBalances(calls: seq<Call>)
    requires forall k :: 0 <= k < |calls| ==> YieldsHandle(Run(calls[..k]), calls[k])
    ensures var a := Run(calls);
      && Balanced(a)
      && Starts(a.events) - Joins(a.events) == if a.running then 1 else 0
  {
    HonestPrefixBalances(calls, |calls|);
    assert calls[..|calls|] == calls;
    OrderBalances(Run(calls).events);
  }

  // -------------------------------------------------- told from the calls alone

  /** The library accepts the start if it gets there. */
  predicate Good(c: Call) { c.Start? && c.argsOk && c.lib.rc == 0 }

  /** What is in charge after some calls: the answer to the first good start
      since the last cleanup, if there has been one. */
  datatype InCharge = Unclaimed | Claimed(handle: Handle)

  function ChargeAfter(calls: seq<Call>): InCharge
    decreases |calls|
  {
    if calls == [] || calls[|calls| - 1].Cleanup? then Unclaimed
    else
      var before, c := ChargeAfter(calls[..|calls| - 1]), calls[|calls| - 1];
      if before == Unclaimed && Good(c) then Claimed(c.lib.handle) else before
  }

  ghost predicate HasClient(calls: seq<Call>) {
    ChargeAfter(calls).Claimed? && ChargeAfter(calls).handle.Client?
  }

  /** How many calls `p` picks, each seen after the calls before it. */
  ghost function Picked(calls: seq<Call>, p: (seq<Call>, Call) -> bool): nat
    decreases |calls|
  {
    if calls == [] then 0
    else
      var before := calls[..|calls| - 1];
      Picked(before, p) + if p(before, calls[|calls| - 1]) then 1 else 0
  }

  lemma CountAppend(events: seq<Event>, e: Event)
    ensures Starts(events + [e]) == Starts(events) + if e.DidStart? then 1 else 0
    ensures Stops(events + [e]) == Stops(events) + if e.DidStop? then 1 else 0
    ensures Joins(events + [e]) == Joins(events) + if e.DidJoin? then 1 else 0
  {
    assert (events + [e])[..|events|] == events;
  }

  ghost predicate StartsLibrary(before: seq<Call>, c: Call) { ChargeAfter(before) == Unclaimed && Good(c) }

  ghost predicate StopsLibrary(before: seq<Call>, c: Call) { HasClient(before) && c.Stop? }

  ghost predicate JoinsLibrary(before: seq<Call>, c: Call) { HasClient(before) && c.Cleanup? }

  /** The adapter is told by the calls alone, whatever the library answers.  It
      runs exactly if a good start has not been cleaned up, with the handle of
      the first such start; and the library has been asked for one start per
      good start that found nothing in charge, one stop per stop that found a
      client, and one join per cleanup that found one. */
  lemma {:induction false} RunIsItsHistory(calls: seq<Call>)
    ensures var a := Run(calls); var charge := ChargeAfter(calls);
      && (a.running <==> charge.Claimed?)
      && a.handle == (if charge.Claimed? then charge.handle else Null)
      && Starts(a.events) == Picked(calls, StartsLibrary)
      && Stops(a.events) == Picked(calls, StopsLibrary)
      && Joins(a.events) == Picked(calls, JoinsLibrary)
    decreases |calls|
  {
    if calls != [] {
      var before, c := calls[..|calls| - 1], calls[|calls| - 1];
      RunIsItsHistory(before);
      var a := Run(before);
      match c
      case Start(_, lib) => CountAppend(a.events, DidStart(lib.handle));
      case Stop => CountAppend(a.events, DidStop(a.handle));
      case Cleanup => CountAppend(a.events, DidJoin(a.handle));
    }
  }

  // -------------------------------------------------------------- the globals

  /** The globals as the calls change them. */
  class Globals {
    var running: bool
    var handle: Handle
    ghost var events: seq<Event>

    ghost function View(): Adapter
      reads this
    {
      Adapter(running, handle, events)
    }

    constructor ()
      ensures View() == IDLE && Balanced(View())
    {
      running, handle := false, Null;
      events := [];
    }

    /** 0 when a client is running afterwards, -1 otherwise; `lib` is what the
        library start answers if it is called. */
    method StartClient(argsOk: bool, lib: Started) returns (rc: int)
      modifies this
      ensures View() == Apply(old(View()), Call.Start(argsOk, lib))
      ensures rc == if running then 0 else -1
      ensures Balanced(old(View())) ==>
                (Balanced(View()) <==> YieldsHandle(old(View()), Call.Start(argsOk, lib)))
    {
      ghost var a := View();
      if Balanced(a) { CallBalancesIff(a, Call.Start(argsOk, lib)); }
      if running { return 0; }
      if !argsOk { return -1; }
      if lib.rc != 0 {
        handle := Null;
        return -1;
      }
      handle := lib.handle;
      events := events + [DidStart(handle)];
      running := true;
      return 0;
    }

    method StopClient() returns (rc: int)
      modifies this
      ensures View() == Apply(old(View()), Call.Stop) && rc == 0
    {
      if !running { return 0; }
      if handle.Client? {
        events := events + [DidStop(handle)];
      }
      return 0;
    }

    method CleanupClient()
      modifies this
      ensures View() == Apply(old(View()), Call.Cleanup) && !running && handle == Null
    {
      if handle.Client? {
        events := events + [DidJoin(handle)];
        handle := Null;
      }
      running := false;
    }
  }
}
