/** The client's response interceptor: concurrent 401 answers share one refresh call, and each request is replayed at most
    once. Network answers arrive in any order. */
module Interceptor {
  import opened Wrappers

  datatype Phase = Unsent | InFlight | Waiting(gen: nat) | Settled(ok: bool)

  /** A call of the client; `retried` is the flag the interceptor sets on its configuration, `sends` counts how often it
      went to the network. */
  datatype Call = Call(refresh: bool, retried: bool, phase: Phase, sends: nat)

  /** The calls made so far, refresh calls included, and the shared promise: the refresh call everyone waits for. */
  datatype Client = Client(calls: seq<Call>, slot: Option<nat>)

  datatype Answer = Succeeded | Unauthorized | Failed

  datatype Event = Send(i: nat) | Receive(i: nat, answer: Answer) | Resume(i: nat)

  predicate Enabled(c: Client, ev: Event) {
    match ev
    case Send(i) => i < |c.calls| && c.calls[i].phase == Unsent
    case Receive(i, _) => i < |c.calls| && c.calls[i].phase == InFlight
    case Resume(i) =>
      && i < |c.calls| && c.calls[i].phase.Waiting?
      && c.calls[i].phase.gen < |c.calls| && c.calls[c.calls[i].phase.gen].phase.Settled?
  }

  /** The call a 401 answer waits for: the one in the slot, or a new refresh call. */
  function Awaited(c: Client): Client {
    if c.slot.Some? then c
    else Client(c.calls + [Call(true, false, InFlight, 1)], Some(|c.calls|))
  }

  /** The rejection handler of the interceptor. */
  function OnError(c: Client, i: nat, answer: Answer): Client
    requires i < |c.calls|
  {
    var call := c.calls[i];
    if answer == Unauthorized && !call.retried && !call.refresh then
      var c' := Awaited(c);
      c'.(calls := c'.calls[i := call.(phase := Waiting(c'.slot.value))])
    else c.(calls := c.calls[i := call.(phase := Settled(false))])
  }

  /** The `finally` callback: a settled refresh call clears the slot. */
  function Cleared(c: Client, i: nat): Client
    requires i < |c.calls|
  {
    if c.calls[i].refresh && c.calls[i].phase.Settled? then c.(slot := None) else c
  }

  function Step(c: Client, ev: Event): Client
    requires Enabled(c, ev)
  {
    match ev
    case Send(i) => c.(calls := c.calls[i := c.calls[i].(phase := InFlight, sends := c.calls[i].sends + 1)])
    case Receive(i, answer) =>
      if answer == Succeeded then Cleared(c.(calls := c.calls[i := c.calls[i].(phase := Settled(true))]), i)
      else Cleared(OnError(c, i, answer), i)
    case Resume(i) =>
      var call := c.calls[i];
      if c.calls[call.phase.gen].phase.ok
      then c.(calls := c.calls[i := call.(retried := true, phase := InFlight, sends := call.sends + 1)])
      else c.(calls := c.calls[i := call.(phase := Settled(false))])
  }

  predicate Possible(c: Client, evs: seq<Event>)
    decreases |evs|
  {
    evs == [] || (Enabled(c, evs[0]) && Possible(Step(c, evs[0]), evs[1..]))
  }

  function Run(c: Client, evs: seq<Event>): Client
    requires Possible(c, evs)
    decreases |evs|
  {
    if evs == [] then c else Run(Step(c, evs[0]), evs[1..])
  }

  /** A client about to make n requests. */
  function Start(n: nat): Client {
    Client(seq(n, _ => Call(false, false, Unsent, 0)), None)
  }

  // ---------- the code, with its two mutable places ----------

  class Api {
    var calls: seq<Call>
    var refreshPromise: Option<nat>

    function View(): Client
      reads this
    {
      Client(calls, refreshPromise)
    }

    constructor (n: nat)
      ensures View() == Start(n)
    {
      calls := seq(n, _ => Call(false, false, Unsent, 0));
      refreshPromise := None;
    }

    method Post(i: nat)
      requires Enabled(View(), Event.Send(i))
      modifies this
      ensures View() == Step(old(View()), Event.Send(i))
    {
      calls := calls[i := calls[i].(phase := InFlight, sends := calls[i].sends + 1)];
    }

    /** Settles a call and, for a refresh call, clears the promise. */
    method Settle(i: nat, ok: bool)
      requires i < |calls|
      modifies this
      ensures View() == Cleared(old(View()).(calls := old(calls)[i := old(calls)[i].(phase := Settled(ok))]), i)
    {
      calls := calls[i := calls[i].(phase := Settled(ok))];
      if calls[i].refresh {
        refreshPromise := None;
      }
    }

    method OnResponse(i: nat, answer: Answer)
      requires Enabled(View(), Receive(i, answer))
      modifies this
      ensures View() == Step(old(View()), Receive(i, answer))
    {
      if answer == Succeeded {
        Settle(i, true);
        return;
      }
      var original := calls[i];
      if answer == Unauthorized && !original.retried && !original.refresh {
        if refreshPromise == None {
          refreshPromise := Some(|calls|);
          calls := calls + [Call(true, false, InFlight, 1)];
        }
        calls := calls[i := original.(phase := Waiting(refreshPromise.value))];
        return;
      }
      Settle(i, false);
    }

    method AfterRefresh(i: nat)
      requires Enabled(View(), Event.Resume(i))
      modifies this
      ensures View() == Step(old(View()), Event.Resume(i))
    {
      var original := calls[i];
      if calls[original.phase.gen].phase.ok {
        original := original.(retried := true);
        calls := calls[i := original.(phase := InFlight, sends := original.sends + 1)];
      } else {
        calls := calls[i := original.(phase := Settled(false))];
      }
    }
  }

  // ---------- what every run keeps ----------

  /** A call's flags and send count fit its phase. */
  predicate CallSound(c: Client, i: nat)
    requires i < |c.calls|
  {
    var call := c.calls[i];
    if call.refresh then !call.retried && call.sends == 1 && (call.phase == InFlight || call.phase.Settled?)
    else
      match call.phase
      case Unsent => !call.retried && call.sends == 0
      case InFlight => call.sends == (if call.retried then 2 else 1)
      case Waiting(gen) => !call.retried && call.sends == 1 && gen < |c.calls| && c.calls[gen].refresh
      case Settled(_) => 1 <= call.sends <= 2
  }

  predicate RefreshInFlight(call: Call) {
    call.refresh && call.phase == InFlight
  }

  /** The slot holds the refresh call in flight, and there is no other. */
  predicate SlotSound(c: Client) {
    && (c.slot.Some? ==> c.slot.value < |c.calls| && RefreshInFlight(c.calls[c.slot.value]))
    && (forall i :: 0 <= i < |c.calls| && RefreshInFlight(c.calls[i]) ==> c.slot == Some(i))
  }

  predicate Sound(c: Client) {
    SlotSound(c) && forall i :: 0 <= i < |c.calls| ==> CallSound(c, i)
  }

  lemma StepKeepsSound(c: Client, ev: Event)
    requires Sound(c) && Enabled(c, ev)
    ensures Sound(Step(c, ev))
  {
    var i, c' := ev.i, Step(c, ev);
    assert CallSound(c, i);
    forall k | 0 <= k < |c'.calls|
      ensures CallSound(c', k)
      ensures RefreshInFlight(c'.calls[k]) ==> c'.slot == Some(k)
    {
      if k < |c.calls| {
        assert CallSound(c, k);
      }
    }
  }

  // ---------- budget and termination ----------

  /** How many sends a call may still cause: itself, one refresh and one replay. */
  function Budget(call: Call): nat {
    if call.refresh || call.retried then 0
    else
      match call.phase
      case Unsent => 3
      case InFlight => 2
      case Waiting(_) => 1
      case Settled(_) => 0
  }

  /** How far a call is from being settled. */
  function Distance(call: Call): nat {
    match call.phase
    case Unsent => 5
    case InFlight => if call.refresh || call.retried then 1 else 4
    case Waiting(_) => 2
    case Settled(_) => 0
  }

  /** Sends made plus sends still possible. */
  function Cost(call: Call): nat {
    call.sends + Budget(call)
  }

  function Sent(call: Call): nat {
    call.sends
  }

  function Sum(calls: seq<Call>, f: Call -> nat): nat {
    if calls == [] then 0 else Sum(calls[..|calls| - 1], f) + f(calls[|calls| - 1])
  }

  lemma {:induction false} SumUpdate(calls: seq<Call>, f: Call -> nat, i: nat, call: Call)
    requires i < |calls|
    ensures Sum(calls[i := call], f) + f(calls[i]) == Sum(calls, f) + f(call)
  {
    var last := |calls| - 1;
    if i == last {
      assert calls[i := call][..last] == calls[..last];
    } else {
      SumUpdate(calls[..last], f, i, call);
      assert calls[i := call][..last] == calls[..last][i := call];
    }
  }

  lemma SumAppend(calls: seq<Call>, f: Call -> nat, call: Call)
    ensures Sum(calls + [call], f) == Sum(calls, f) + f(call)
  {
    assert (calls + [call])[..|calls|] == calls;
  }

  lemma {:induction false} SumBelow(calls: seq<Call>, f: Call -> nat, g: Call -> nat)
    requires forall call :: f(call) <= g(call)
    ensures Sum(calls, f) <= Sum(calls, g)
  {
    if calls != [] {
      SumBelow(calls[..|calls| - 1], f, g);
    }
  }

  /** Replacing one call by a cheaper one, after possibly adding the refresh call it waits for. */
  lemma StepSum(c: Client, ev: Event, f: Call -> nat)
    requires Enabled(c, ev)
    ensures var (i, c') := (ev.i, Step(c, ev));
      && |c.calls| <= |c'.calls|
      && Sum(c'.calls, f) + f(c.calls[i])
         == Sum(c.calls, f) + f(c'.calls[i]) + (if |c'.calls| > |c.calls| then f(Call(true, false, InFlight, 1)) else 0)
  {
    var i, c' := ev.i, Step(c, ev);
    if |c'.calls| > |c.calls| {
      var grown := c.calls + [Call(true, false, InFlight, 1)];
      SumAppend(c.calls, f, Call(true, false, InFlight, 1));
      SumUpdate(grown, f, i, c'.calls[i]);
      assert c'.calls == grown[i := c'.calls[i]];
    } else {
      SumUpdate(c.calls, f, i, c'.calls[i]);
      assert c'.calls == c.calls[i := c'.calls[i]];
    }
  }

  /** No event raises the sends made plus the sends still possible. */
  lemma StepKeepsCost(c: Client, ev: Event)
    requires Sound(c) && Enabled(c, ev)
    ensures Sum(Step(c, ev).calls, Cost) <= Sum(c.calls, Cost)
  {
    hide Sum, SlotSound;
    StepSum(c, ev, Cost);
    assert CallSound(c, ev.i);
  }

  /** Every event brings the calls closer to being settled. */
  lemma StepComesCloser(c: Client, ev: Event)
    requires Sound(c) && Enabled(c, ev)
    ensures Sum(Step(c, ev).calls, Distance) < Sum(c.calls, Distance)
  {
    hide Sum, SlotSound;
    StepSum(c, ev, Distance);
    assert CallSound(c, ev.i);
  }

  /** The first n calls are the application's, all later ones refresh calls. */
  predicate Originals(c: Client, n: nat) {
    n <= |c.calls| && forall i :: 0 <= i < |c.calls| ==> (c.calls[i].refresh <==> i >= n)
  }

  lemma StepKeepsOriginals(c: Client, ev: Event, n: nat)
    requires Enabled(c, ev) && Originals(c, n)
    ensures Originals(Step(c, ev), n)
  {
  }

  lemma {:induction false} RunKeeps(c: Client, evs: seq<Event>, n: nat)
    requires Sound(c) && Originals(c, n) && Possible(c, evs)
    ensures Sound(Run(c, evs)) && Originals(Run(c, evs), n)
    ensures Sum(Run(c, evs).calls, Cost) <= Sum(c.calls, Cost)
    ensures |evs| + Sum(Run(c, evs).calls, Distance) <= Sum(c.calls, Distance)
    decreases |evs|
  {
    hide Sound, Originals, Step, Enabled, Sum;
    if evs != [] {
      StepKeepsSound(c, evs[0]);
      StepKeepsOriginals(c, evs[0], n);
      StepKeepsCost(c, evs[0]);
      StepComesCloser(c, evs[0]);
      RunKeeps(Step(c, evs[0]), evs[1..], n);
    }
  }

  lemma {:induction false} StartSums(n: nat)
    ensures Sum(Start(n).calls, Cost) == 3 * n && Sum(Start(n).calls, Distance) == 5 * n
  {
    if n > 0 {
      StartSums(n - 1);
      assert Start(n).calls[..n - 1] == Start(n - 1).calls;
    }
  }

  /** For any order of sends and answers of n requests: at most one refresh call is in flight, each request is sent at most
      twice, a refresh call exactly once, and at most 3n calls reach the network in all. */
  lemma SingleFlight(n: nat, evs: seq<Event>)
    requires Possible(Start(n), evs)
    ensures var c := Run(Start(n), evs);
      && n <= |c.calls|
      && (forall i, j | 0 <= i < j < |c.calls| :: !(RefreshInFlight(c.calls[i]) && RefreshInFlight(c.calls[j])))
      && (forall i :: 0 <= i < n ==> !c.calls[i].refresh && c.calls[i].sends <= 2)
      && (forall i :: n <= i < |c.calls| ==> c.calls[i].refresh && c.calls[i].sends == 1)
      && Sum(c.calls, Sent) <= 3 * n
  {
    hide Possible, Run, Sum;
    StartSound(n);
    StartSums(n);
    RunKeeps(Start(n), evs, n);
    var c := Run(Start(n), evs);
    SumBelow(c.calls, Sent, Cost);
    forall i | 0 <= i < |c.calls|
      ensures c.calls[i].refresh <==> i >= n
      ensures if i < n then c.calls[i].sends <= 2 else c.calls[i].sends == 1
    {
      assert CallSound(c, i);
    }
  }

  lemma StartSound(n: nat)
    ensures Sound(Start(n)) && Originals(Start(n), n)
  {
  }

  /** Some event is possible as long as some call is unsettled. */
  lemma NotStuck(c: Client, i: nat)
    requires Sound(c) && i < |c.calls| && !c.calls[i].phase.Settled?
    ensures exists ev :: Enabled(c, ev)
  {
    assert CallSound(c, i);
    match c.calls[i].phase
    case Unsent => assert Enabled(c, Event.Send(i));
    case InFlight => assert Enabled(c, Receive(i, Failed));
    case Waiting(gen) =>
      assert CallSound(c, gen);
      assert Enabled(c, if c.calls[gen].phase.Settled? then Event.Resume(i) else Receive(gen, Failed));
  }

  /** Everything settles: a run of n requests has at most 5n events, and where it can go no further every call, request or
      refresh, is settled. */
  lemma EverythingSettles(n: nat, evs: seq<Event>)
    requires Possible(Start(n), evs)
    ensures |evs| <= 5 * n
    ensures (forall ev :: !Enabled(Run(Start(n), evs), ev)) ==>
      forall i :: 0 <= i < |Run(Start(n), evs).calls| ==> Run(Start(n), evs).calls[i].phase.Settled?
  {
    hide Possible, Run, Sum, Enabled;
    StartSound(n);
    StartSums(n);
    RunKeeps(Start(n), evs, n);
    var c := Run(Start(n), evs);
    if forall ev :: !Enabled(c, ev) {
      forall i | 0 <= i < |c.calls| ensures c.calls[i].phase.Settled? {
        if !c.calls[i].phase.Settled? {
          NotStuck(c, i);
        }
      }
    }
  }

  // ---------- outcomes ----------

  /** The answers a call received, in order. */
  function Answers(evs: seq<Event>, i: nat): seq<Answer> {
    if evs == [] then [] else Heard(evs[0], i) + Answers(evs[1..], i)
  }

  function Heard(ev: Event, i: nat): seq<Answer> {
    if ev.Receive? && ev.i == i then [ev.answer] else []
  }

  /** Some refresh call ended this way. */
  predicate RefreshEnded(c: Client, ok: bool) {
    exists g :: 0 <= g < |c.calls| && c.calls[g].refresh && c.calls[g].phase == Settled(ok)
  }

  /** A call's phase is what its answers and the refresh it waited for make of it. */
  predicate Told(c: Client, i: nat, heard: seq<Answer>)
    requires i < |c.calls|
  {
    var call := c.calls[i];
    if call.refresh then
      if call.phase.Settled? then |heard| == 1 && call.phase.ok == (heard[0] == Succeeded) else heard == []
    else
      && (call.retried ==> RefreshEnded(c, true))
      && match call.phase
         case Unsent => heard == []
         case InFlight => heard == if call.retried then [Unauthorized] else []
         case Waiting(_) => heard == [Unauthorized]
         case Settled(ok) =>
           if call.retried then |heard| == 2 && heard[0] == Unauthorized && ok == (heard[1] == Succeeded)
           else |heard| == 1 && ok == (heard[0] == Succeeded) && (heard[0] == Unauthorized ==> RefreshEnded(c, false))
  }

  lemma EndedStays(c: Client, ev: Event, ok: bool)
    requires Enabled(c, ev) && RefreshEnded(c, ok)
    ensures RefreshEnded(Step(c, ev), ok)
  {
    var g :| 0 <= g < |c.calls| && c.calls[g].refresh && c.calls[g].phase == Settled(ok);
    assert Step(c, ev).calls[g].phase == Settled(ok);
  }

  /** A waiting request whose refresh call succeeded is marked and sent again; one whose refresh call failed is rejected and
      not sent again. */
  lemma ResumeFollowsRefresh(c: Client, i: nat)
    requires Enabled(c, Event.Resume(i)) && Sound(c)
    ensures var (call, call') := (c.calls[i], Step(c, Event.Resume(i)).calls[i]);
      && call.phase.Waiting? && call.phase.gen < |c.calls|
      && (c.calls[call.phase.gen].phase == Settled(true) ==> call' == Call(false, true, InFlight, 2))
      && (c.calls[call.phase.gen].phase == Settled(false) ==> call' == Call(false, false, Settled(false), 1))
      && (c.calls[call.phase.gen].phase == Settled(true) || c.calls[call.phase.gen].phase == Settled(false))
  {
    assert CallSound(c, i);
  }

  lemma StepTold(c: Client, ev: Event, i: nat, heard: seq<Answer>)
    requires Sound(c) && Enabled(c, ev) && i < |Step(c, ev).calls|
    requires if i < |c.calls| then Told(c, i, heard) else heard == []
    ensures Told(Step(c, ev), i, heard + Heard(ev, i))
  {
    hide SlotSound;
    var c' := Step(c, ev);
    forall ok | RefreshEnded(c, ok) ensures RefreshEnded(c', ok) {
      EndedStays(c, ev, ok);
    }
    if ev.Resume? && ev.i == i {
      var gen := c.calls[i].phase.gen;
      assert CallSound(c, i);
      assert c.calls[gen].refresh && c.calls[gen].phase == Settled(c.calls[gen].phase.ok);
      assert c'.calls[gen] == c.calls[gen];
      assert RefreshEnded(c', c.calls[gen].phase.ok);
    }
    if i < |c.calls| {
      assert CallSound(c, i);
    }
  }

  lemma {:induction false} RunTold(c: Client, evs: seq<Event>, i: nat, heard: seq<Answer>)
    requires Sound(c) && Possible(c, evs) && i < |Run(c, evs).calls|
    requires if i < |c.calls| then Told(c, i, heard) else heard == []
    ensures Told(Run(c, evs), i, heard + Answers(evs, i))
    decreases |evs|
  {
    hide Sound, Told, Step, Enabled, Heard;
    if evs == [] {
      assert heard + [] == heard;
    } else {
      var c1 := Step(c, evs[0]);
      StepKeepsSound(c, evs[0]);
      if i < |c1.calls| {
        StepTold(c, evs[0], i, heard);
      } else {
        NothingHeard(c, evs[0], i);
      }
      RunTold(c1, evs[1..], i, heard + Heard(evs[0], i));
      assert heard + Heard(evs[0], i) + Answers(evs[1..], i) == heard + Answers(evs, i);
    }
  }

  lemma NothingHeard(c: Client, ev: Event, i: nat)
    requires Enabled(c, ev) && i >= |Step(c, ev).calls|
    ensures Heard(ev, i) == [] && i >= |c.calls|
  {
  }

  /** For any order of sends and answers of n requests, a call succeeds if and only if its last answer did, and it has two
      answers at most, the second only after a 401 and a refresh that succeeded. A request is rejected exactly after an
      answer that failed, after a second 401, or after a 401 whose refresh failed; a refresh call, after any other answer
      than success. */
  lemma OutcomesFollowAnswers(n: nat, evs: seq<Event>, i: nat)
    requires Possible(Start(n), evs) && i < |Run(Start(n), evs).calls|
    ensures var (c, heard) := (Run(Start(n), evs), Answers(evs, i));
      && (c.calls[i].phase == Settled(true) <==> heard != [] && heard[|heard| - 1] == Succeeded)
      && |heard| <= 2
      && (|heard| == 2 ==> i < n && heard[0] == Unauthorized && RefreshEnded(c, true))
      && (heard != [] && heard[|heard| - 1] == Failed ==> c.calls[i].phase == Settled(false))
      && (|heard| == 2 && heard[1] == Unauthorized ==> c.calls[i].phase == Settled(false))
      && (c.calls[i].phase == Settled(false) ==>
            && heard != [] && heard[|heard| - 1] != Succeeded
            && (heard == [Unauthorized] && i < n ==> RefreshEnded(c, false)))
  {
    hide Possible, Run, Answers, RefreshEnded, Sound;
    StartSound(n);
    StartSums(n);
    RunKeeps(Start(n), evs, n);
    StartTold(n, i);
    RunTold(Start(n), evs, i, []);
    assert [] + Answers(evs, i) == Answers(evs, i);
  }

  lemma StartTold(n: nat, i: nat)
    ensures i < n ==> Told(Start(n), i, [])
  {
  }
}
