/** The middleware's shared cache, updated in place by each stretch of code between awaits, against SingleExecution.dfy. */
module MiddlewareObject {
  import opened Prelude
  import opened SingleExecution

  class ExecutionCache {
    var cache: map<Id, Entry>
    var running: map<nat, Id>
    var woken: map<nat, Id>
    var runs: seq<Id>
    var answers: seq<Answer>

    ghost function Value(): State
      reads this
    {
      State(cache, running, woken, runs, answers)
    }

    constructor ()
      ensures Value() == Start
    {
      cache, running, woken, runs, answers := map[], map[], map[], [], [];
    }

    /** A verified request: run the handler, wait for the one that runs it, or answer from the cache. */
    method Arrives(request: nat, verification: Id)
      requires Inv(Value())
      modifies this
      ensures Value() == Next(old(Value()), Arrive(request, verification)) && Inv(Value())
    {
      ArriveKeeps(Value(), request, verification);
      if request in running { return; }
      if verification in cache {
        var existing := cache[verification];
        if existing.status == Executing {
          cache := cache[verification := existing.(waiters := existing.waiters + [request])];
          return;
        }
        answers := answers + [Replay(request, verification, existing, Cached)];
        return;
      }
      cache := cache[verification := Entry(Executing, None, None, None, [])];
      running := running[request := verification];
      runs := runs + [verification];
    }

    /** Resolves every waiter's promise with the finished entry. */
    method Resolve(waiters: seq<nat>, verification: Id)
      modifies this`woken
      ensures woken == Released(old(woken), waiters, verification)
    {
      ghost var before := woken;
      assert woken == Released(before, waiters[..0], verification);
      for i := 0 to |waiters|
        invariant woken == Released(before, waiters[..i], verification)
      {
        assert waiters[..i + 1] == waiters[..i] + [waiters[i]];
        woken := woken[waiters[i] := verification];
      }
      assert waiters[..|waiters|] == waiters;
    }

    method Finishes(request: nat, done: Entry)
      requires request in running && running[request] in cache && done.waiters == []
      modifies this
      ensures Value() == Finish(old(Value()), request, done)
    {
      var verification := running[request];
      var waiters := cache[verification].waiters;
      cache := cache[verification := done.(waiters := waiters)];
      Resolve(waiters, verification);
      cache := cache[verification := done];
      running := running - {request};
      answers := answers + [Replay(request, verification, done, Own)];
    }

    /** The handler responded and the payment settled. */
    method Settles(request: nat, status: Option<nat>, body: Option<string>, response: string)
      requires Inv(Value())
      modifies this
      ensures Value() == Next(old(Value()), Settled(request, status, body, response)) && Inv(Value())
    {
      EventKeeps(Value(), Settled(request, status, body, response));
      hide Inv, Finish;
      if request !in running { return; }
      if running[request] !in cache { return; }
      var code := if status.Some? then status.value else 200;
      Finishes(request, Entry(if code < 400 then ServedSuccess else ServedError, Some(code), body, Some(response), []));
    }

    /** The handler responded but settling failed: everyone gets the failure. */
    method SettlementFails(request: nat, failure: string, response: string)
      requires Inv(Value())
      modifies this
      ensures Value() == Next(old(Value()), Unsettled(request, failure, response)) && Inv(Value())
    {
      EventKeeps(Value(), Unsettled(request, failure, response));
      hide Inv, Finish;
      if request !in running { return; }
      if running[request] !in cache { return; }
      Finishes(request, Entry(ServedError, Some(502), Some(failure), Some(response), []));
    }

    /** An exception between patching the response and serving the entry: the answer to it goes to the hook. */
    method Escapes(request: nat)
      requires Inv(Value())
      modifies this`running
      ensures Value() == Next(old(Value()), Escaped(request)) && Inv(Value())
    {
      FewerRunning(Value(), request);
      hide Inv;
      running := running - {request};
    }

    /** A waiter resumes and answers with what the entry holds by then. */
    method Wakes(request: nat)
      requires Inv(Value())
      modifies this
      ensures Value() == Next(old(Value()), Wake(request)) && Inv(Value())
    {
      WakeKeeps(Value(), request);
      hide Inv;
      if request !in woken { return; }
      if woken[request] !in cache { return; }
      answers := answers + [Replay(request, woken[request], cache[woken[request]], Waited)];
      woken := woken - {request};
    }
  }
}
