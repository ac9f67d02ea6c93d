/** Synchronous compute slots: a bounded semaphore and per-client counts, released in two steps. */
module ComputeSlots {

  const MAX_SYNC_COMPUTE_REQUESTS: nat := 2
  const MAX_SYNC_COMPUTE_PER_CLIENT: nat := 1

  type Request = nat
  type Client = string

  datatype Verdict = Acquired | ClientBusy | ServerBusy

  /** The semaphore and the counts, the requests holding a slot (by client), and those between
      dropping their count and releasing the semaphore. */
  datatype State = State(free: nat, running: map<Client, nat>, holders: map<Request, Client>, leaving: set<Request>)

  const IDLE := State(MAX_SYNC_COMPUTE_REQUESTS, map[], map[], {})

  /** The atomic steps of requests: each is one lock section or one semaphore operation. */
  datatype Event = Acquire(request: Request, client: Client) | DropCount(request: Request) | Release(request: Request)

  function RunningOf(running: map<Client, nat>, client: Client): nat {
    if client in running then running[client] else 0
  }

  /** What an acquiring request is told: its own client is looked at first. */
  function Answer(s: State, client: Client): Verdict {
    if RunningOf(s.running, client) >= MAX_SYNC_COMPUTE_PER_CLIENT then ClientBusy
    else if s.free == 0 then ServerBusy
    else Acquired
  }

  /** A request acquires once, drops its count while holding, and releases after that. */
  predicate Enabled(s: State, e: Event) {
    match e
    case Acquire(request, _) => request !in s.holders && request !in s.leaving
    case DropCount(request) => request in s.holders && s.holders[request] in s.running
    case Release(request) => request in s.leaving
  }

  function Happen(s: State, e: Event): State
    requires Enabled(s, e)
  {
    match e
    case Acquire(request, client) =>
      if Answer(s, client) != Acquired then s
      else s.(free := s.free - 1, running := s.running[client := RunningOf(s.running, client) + 1],
              holders := s.holders[request := client])
    case DropCount(request) =>
      var client := s.holders[request];
      s.(running := if s.running[client] == 1 then s.running - {client}
                    else s.running[client := Less(s.running[client])],
         holders := s.holders - {request}, leaving := s.leaving + {request})
    case Release(request) =>
      s.(free := s.free + 1, leaving := s.leaving - {request})
  }

  /** One less, as the source's subtraction gives it for a positive count. */
  function Less(n: nat): nat {
    if n == 0 then 0 else n - 1
  }

  function HeldBy(holders: map<Request, Client>, client: Client): set<Request> {
    set r | r in holders && holders[r] == client
  }

  /** Every slot is free, held, or between its two release steps; a client's count is the number
      of its holders, at most one, and never stored as zero. */
  ghost predicate Inv(s: State) {
    && s.free + |s.holders| + |s.leaving| == MAX_SYNC_COMPUTE_REQUESTS
    && s.holders.Keys !! s.leaving
    && (forall c :: RunningOf(s.running, c) == |HeldBy(s.holders, c)| <= MAX_SYNC_COMPUTE_PER_CLIENT)
    && (forall c :: c in s.running ==> s.running[c] > 0)
  }

  lemma AddHolder(holders: map<Request, Client>, request: Request, client: Client, c: Client)
    requires request !in holders
    ensures |holders[request := client]| == |holders| + 1
    ensures |HeldBy(holders[request := client], c)| == |HeldBy(holders, c)| + if c == client then 1 else 0
  {
    var grown := holders[request := client];
    assert grown.Keys == holders.Keys + {request};
    if c == client {
      assert HeldBy(grown, c) == HeldBy(holders, c) + {request};
    } else {
      assert HeldBy(grown, c) == HeldBy(holders, c);
    }
  }

  lemma DropHolder(holders: map<Request, Client>, request: Request, c: Client)
    requires request in holders
    ensures |holders - {request}| == |holders| - 1
    ensures |HeldBy(holders, c)| == |HeldBy(holders - {request}, c)| + if c == holders[request] then 1 else 0
  {
    var rest := holders - {request};
    assert rest[request := holders[request]] == holders;
    AddHolder(rest, request, holders[request], c);
  }

  lemma AcquireKeepsInv(s: State, request: Request, client: Client)
    requires Inv(s) && request !in s.holders && request !in s.leaving && Answer(s, client) == Acquired
    ensures Inv(Happen(s, Acquire(request, client)))
  {
    var t := Happen(s, Acquire(request, client));
    AddHolder(s.holders, request, client, client);
    forall c
      ensures |HeldBy(t.holders, c)| == |HeldBy(s.holders, c)| + if c == client then 1 else 0
    {
      AddHolder(s.holders, request, client, c);
    }
    hide HeldBy;
  }

  lemma DropKeepsInv(s: State, request: Request)
    requires Inv(s) && Enabled(s, DropCount(request))
    ensures Inv(Happen(s, DropCount(request)))
  {
    forall c {
      DropHolder(s.holders, request, c);
    }
    DropHolder(s.holders, request, s.holders[request]);
    hide HeldBy;
  }

  /** Each atomic step keeps the invariant, so it holds on every interleaving. The release never
      raises: the bounded semaphore is below its bound. */
  lemma StepKeepsInv(s: State, e: Event)
    requires Inv(s) && Enabled(s, e)
    ensures Inv(Happen(s, e))
    ensures e.Release? ==> s.free < MAX_SYNC_COMPUTE_REQUESTS
  {
    match e
    case Acquire(request, client) =>
      if Answer(s, client) == Acquired {
        AcquireKeepsInv(s, request, client);
      }
    case DropCount(request) =>
      DropKeepsInv(s, request);
    case Release(request) =>
      hide HeldBy;
      assert |s.leaving - {request}| == |s.leaving| - 1;
  }

  /** A holder can always drop its count: its client is in the map. */
  lemma HolderIsCounted(s: State, request: Request)
    requires Inv(s) && request in s.holders
    ensures Enabled(s, DropCount(request))
  {
    assert request in HeldBy(s.holders, s.holders[request]);
  }

  /** The states a run of atomic steps passes through. */
  ghost predicate IsRun(events: seq<Event>, states: seq<State>) {
    && |states| == |events| + 1 && states[0] == IDLE
    && forall k :: 0 <= k < |events| ==> Enabled(states[k], events[k]) && states[k + 1] == Happen(states[k], events[k])
  }

  /** Whatever the interleaving: at most two slots are in use, and a client never has two. */
  lemma {:induction false} EveryInterleaving(events: seq<Event>, states: seq<State>, k: nat)
    requires IsRun(events, states) && k < |states|
    ensures Inv(states[k]) && |states[k].holders| + |states[k].leaving| <= MAX_SYNC_COMPUTE_REQUESTS
    ensures forall r, q ::
              r in states[k].holders && q in states[k].holders && states[k].holders[r] == states[k].holders[q]
              ==> r == q
    decreases k
  {
    if k == 0 {
      forall c
        ensures HeldBy(IDLE.holders, c) == {}
      {
      }
    } else {
      EveryInterleaving(events, states, k - 1);
      StepKeepsInv(states[k - 1], events[k - 1]);
    }
    OneEach(states[k]);
  }

  lemma OneEach(s: State)
    requires Inv(s)
    ensures forall r, q :: r in s.holders && q in s.holders && s.holders[r] == s.holders[q] ==> r == q
  {
    forall r, q | r in s.holders && q in s.holders && s.holders[r] == s.holders[q]
      ensures r == q
    {
      var held := HeldBy(s.holders, s.holders[r]);
      assert {r, q} <= held;
      if r != q {
        SubsetSize({r, q}, held);
      }
    }
  }

  lemma SubsetSize<T>(a: set<T>, b: set<T>)
    requires a <= b
    ensures |a| <= |b|
  {
    assert b == a + (b - a);
  }

  /** At quiescence every slot is free again and the map is empty: nothing leaks. */
  lemma Quiescent(s: State)
    requires Inv(s) && s.holders == map[] && s.leaving == {}
    ensures s == IDLE
  {
    forall c
      ensures c !in s.running
    {
      assert HeldBy(s.holders, c) == {};
    }
    assert s.running == map[];
  }

  /** A client is told it is busy exactly while one of its requests holds a slot. */
  lemma BusyIffHolding(s: State, client: Client)
    requires Inv(s)
    ensures Answer(s, client) == ClientBusy <==> client in s.holders.Values
  {
    var held := HeldBy(s.holders, client);
    if client in s.holders.Values {
      var r :| r in s.holders && s.holders[r] == client;
      assert r in held;
    } else {
      forall r | r in s.holders
        ensures s.holders[r] != client
      {
        assert s.holders[r] in s.holders.Values;
      }
      assert held == {};
    }
  }

  /** A client that holds nothing is refused exactly when both slots are taken by others. */
  lemma RefusedOnlyWhenFull(s: State, client: Client)
    requires Inv(s) && client !in s.holders.Values
    ensures Answer(s, client) != Acquired <==> |s.holders| + |s.leaving| == MAX_SYNC_COMPUTE_REQUESTS
  {
    BusyIffHolding(s, client);
  }

  /** What acquiring, dropping and releasing one slot does, and that it leaves nothing behind: the
      request holds its client's slot in between, and after the three steps all is as before. */
  lemma OneRequest(s: State, request: Request, client: Client)
    requires Inv(s) && Enabled(s, Acquire(request, client)) && Answer(s, client) == Acquired
    ensures var held := Happen(s, Acquire(request, client));
            && held.holders == s.holders[request := client] && held.free == s.free - 1
            && Enabled(held, DropCount(request))
            && var dropped := Happen(held, DropCount(request));
               && dropped.holders == s.holders && dropped.running == s.running && dropped.free == held.free
               && Enabled(dropped, Release(request)) && Happen(dropped, Release(request)) == s
  {
    hide Inv, HeldBy;
    NotRunning(s, client);
    var held := Happen(s, Acquire(request, client));
    assert held.holders - {request} == s.holders;
    assert held.running - {client} == s.running;
    assert s.leaving + {request} - {request} == s.leaving;
  }

  lemma NotRunning(s: State, client: Client)
    requires Inv(s) && RunningOf(s.running, client) < MAX_SYNC_COMPUTE_PER_CLIENT
    ensures client !in s.running
  {
    hide HeldBy;
  }

  /** The server's semaphore and counts. */
  class ComputeSlotTable {
    var free: nat
    var running: map<Client, nat>
    ghost var holders: map<Request, Client>
    ghost var leaving: set<Request>

    ghost function View(): State
      reads this
    {
      State(free, running, holders, leaving)
    }

    constructor ()
      ensures View() == IDLE
    {
      free, running := MAX_SYNC_COMPUTE_REQUESTS, map[];
      holders, leaving := map[], {};
    }

    /** The acquiring lock section. */
    method TryAcquire(client: Client, ghost request: Request) returns (verdict: Verdict)
      requires Inv(View()) && Enabled(View(), Acquire(request, client))
      modifies this
      ensures verdict == Answer(old(View()), client)
      ensures Inv(View()) && View() == Happen(old(View()), Acquire(request, client))
      ensures verdict == ClientBusy <==> client in old(holders).Values
      ensures verdict == ServerBusy <==> client !in old(holders).Values && |old(holders)| + |old(leaving)| == 2
      ensures holders == (if verdict == Acquired then old(holders)[request := client] else old(holders))
      ensures leaving == old(leaving)
    {
      hide Inv, HeldBy;
      StepKeepsInv(View(), Acquire(request, client));
      BusyIffHolding(View(), client);
      if client !in holders.Values {
        RefusedOnlyWhenFull(View(), client);
      }
      if RunningOf(running, client) >= MAX_SYNC_COMPUTE_PER_CLIENT {
        return ClientBusy;
      }
      if free == 0 {
        return ServerBusy;
      }
      free := free - 1;
      running := running[client := RunningOf(running, client) + 1];
      holders := holders[request := client];
      return Acquired;
    }

    /** The releasing lock section: the count goes down, and leaves the map at zero. */
    method Drop(client: Client, ghost request: Request)
      requires Inv(View()) && request in holders && holders[request] == client
      modifies this
      ensures old(Enabled(View(), DropCount(request)))
      ensures Inv(View()) && View() == Happen(old(View()), DropCount(request))
      ensures holders == old(holders) - {request} && leaving == old(leaving) + {request} && free == old(free)
    {
      HolderIsCounted(View(), request);
      StepKeepsInv(View(), DropCount(request));
      var remaining := running[client] - 1;
      if remaining != 0 {
        running := running[client := remaining];
      } else {
        running := running - {client};
      }
      holders, leaving := holders - {request}, leaving + {request};
    }

    /** The semaphore release, outside the lock. */
    method ReleaseSlot(ghost request: Request)
      requires Inv(View()) && request in leaving
      modifies this
      ensures Inv(View()) && View() == Happen(old(View()), Release(request))
      ensures free == old(free) + 1 <= 2 && holders == old(holders) && leaving == old(leaving) - {request}
    {
      StepKeepsInv(View(), Release(request));
      free := free + 1;
      leaving := leaving - {request};
    }
  }
}
