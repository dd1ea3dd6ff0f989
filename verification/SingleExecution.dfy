/**
 * The provider middleware's single-execution rule (middleware/src/middleware.ts). JavaScript runs to the next `await`
 * without interruption, so each stretch between awaits is one event; any interleaving of events is a run.
 */
module SingleExecution {
  import opened Prelude
  import opened CreditIndex

  datatype Status = Executing | ServedSuccess | ServedError

  /** An entry of `executionCache`; requests are told apart by number. */
  datatype Entry = Entry(status: Status, statusCode: Option<nat>, body: Option<string>, paymentResponse: Option<string>, waiters: seq<nat>)

  datatype Source = Own | Cached | Waited

  /** What a request was answered with, and how it came by the answer. */
  datatype Answer = Answer(request: nat, verification: Id, source: Source, statusCode: nat, body: Option<string>, paymentResponse: Option<string>)

  /** Shared state, what each request in flight is doing, and the history of handler runs and answers. */
  datatype State = State(cache: map<Id, Entry>, running: map<nat, Id>, woken: map<nat, Id>, runs: seq<Id>, answers: seq<Answer>)

  const Start := State(map[], map[], map[], [], [])

  datatype Event =
    | Arrive(request: nat, verification: Id)                                                        // verified, looks the cache up
    | Settled(request: nat, status: Option<nat>, body: Option<string>, response: string)            // handler done, payment settled
    | Unsettled(request: nat, failure: string, response: string)                                    // handler done, settlement failed
    | Escaped(request: nat)                                                                         // an exception before the entry is served
    | Wake(request: nat)                                                                            // a waiter's promise resumes

  function Replay(request: nat, verification: Id, entry: Entry, source: Source): Answer
  {
    Answer(request, verification, source, if entry.statusCode.Some? then entry.statusCode.value else 200, entry.body, entry.paymentResponse)
  }

  /** Resolving a promise schedules its continuation. */
  function Released(woken: map<nat, Id>, waiters: seq<nat>, verification: Id): map<nat, Id>
  {
    map r | r in woken.Keys + (set w | w in waiters) :: if r in waiters then verification else woken[r]
  }

  /** The executing request records its result, resolves the waiters and answers. */
  function Finish(st: State, request: nat, done: Entry): State
    requires request in st.running && st.running[request] in st.cache
  {
    var verification := st.running[request];
    st.(cache := st.cache[verification := done.(waiters := [])],
        running := st.running - {request},
        woken := Released(st.woken, st.cache[verification].waiters, verification),
        answers := st.answers + [Replay(request, verification, done, Own)])
  }

  function Next(st: State, e: Event): State
  {
    match e
    case Arrive(request, verification) =>
      if request in st.running then st // a request that is already being served does not arrive again
      else if verification !in st.cache then
        st.(cache := st.cache[verification := Entry(Executing, None, None, None, [])],
            running := st.running[request := verification], runs := st.runs + [verification])
      else
        var entry := st.cache[verification];
        if entry.status == Executing then st.(cache := st.cache[verification := entry.(waiters := entry.waiters + [request])])
        else st.(answers := st.answers + [Replay(request, verification, entry, Cached)])
    case Settled(request, status, body, response) =>
      if request !in st.running || st.running[request] !in st.cache then st else
        var code := if status.Some? then status.value else 200;
        Finish(st, request, Entry(if code < 400 then ServedSuccess else ServedError, Some(code), body, Some(response), []))
    case Unsettled(request, failure, response) =>
      if request !in st.running || st.running[request] !in st.cache then st
      else Finish(st, request, Entry(ServedError, Some(502), Some(failure), Some(response), []))
    case Escaped(request) => st.(running := st.running - {request}) // the response hooks swallow the error answer too
    case Wake(request) =>
      if request !in st.woken || st.woken[request] !in st.cache then st else
        st.(woken := st.woken - {request},
            answers := st.answers + [Replay(request, st.woken[request], st.cache[st.woken[request]], Waited)])
  }

  function Run(events: seq<Event>): State { if events == [] then Start else Next(Run(events[..|events| - 1]), events[|events| - 1]) }

  // ---- What every interleaving keeps ----

  /** The answer the execution itself gave. */
  ghost predicate Gave(answers: seq<Answer>, verification: Id, statusCode: nat, body: Option<string>, response: Option<string>)
  {
    exists i :: 0 <= i < |answers| && answers[i].source == Own && answers[i].verification == verification
      && answers[i].statusCode == statusCode && answers[i].body == body && answers[i].paymentResponse == response
  }

  /** A cached answer or one given to a waiter repeats the execution's own. */
  ghost predicate Faithful(answers: seq<Answer>, a: Answer)
  {
    a.source == Cached || a.source == Waited ==> Gave(answers, a.verification, a.statusCode, a.body, a.paymentResponse)
  }

  ghost predicate EntryOk(answers: seq<Answer>, verification: Id, entry: Entry)
  {
    entry.status == Executing
    || (entry.statusCode.Some? && Gave(answers, verification, entry.statusCode.value, entry.body, entry.paymentResponse))
  }

  /** No handler has run twice, and at most one request is executing for a verification. */
  ghost predicate OnceOnly(runs: seq<Id>, running: map<nat, Id>, cache: map<Id, Entry>)
  {
    && Distinct(runs) && (forall id :: id in runs <==> id in cache)
    && (forall r :: r in running ==> running[r] in cache && cache[running[r]].status == Executing)
    && (forall r, q :: r in running && q in running && running[r] == running[q] ==> r == q)
  }

  /** At most one answer per verification is an execution's own, and nobody is answered while it executes. */
  ghost predicate OwnOnce(answers: seq<Answer>, cache: map<Id, Entry>)
  {
    && (forall i, j :: 0 <= i < j < |answers| && answers[i].source == Own && answers[j].source == Own ==>
          answers[i].verification != answers[j].verification)
    && (forall i :: 0 <= i < |answers| ==> answers[i].verification in cache && cache[answers[i].verification].status != Executing)
  }

  ghost predicate EntriesOk(answers: seq<Answer>, cache: map<Id, Entry>)
  {
    forall id :: id in cache ==> EntryOk(answers, id, cache[id])
  }

  ghost predicate AllFaithful(answers: seq<Answer>) { forall i :: 0 <= i < |answers| ==> Faithful(answers, answers[i]) }

  /** A promise is resolved only once the entry is final. */
  ghost predicate WokenOk(woken: map<nat, Id>, cache: map<Id, Entry>)
  {
    forall r :: r in woken ==> woken[r] in cache && cache[woken[r]].status != Executing
  }

  ghost predicate Inv(st: State)
  {
    && OnceOnly(st.runs, st.running, st.cache) && OwnOnce(st.answers, st.cache)
    && EntriesOk(st.answers, st.cache) && WokenOk(st.woken, st.cache) && AllFaithful(st.answers)
  }

  lemma GaveMore(answers: seq<Answer>, a: Answer, verification: Id, statusCode: nat, body: Option<string>, response: Option<string>)
    requires Gave(answers, verification, statusCode, body, response)
    ensures Gave(answers + [a], verification, statusCode, body, response)
  {
    var i :| 0 <= i < |answers| && answers[i].source == Own && answers[i].verification == verification
      && answers[i].statusCode == statusCode && answers[i].body == body && answers[i].paymentResponse == response;
    assert (answers + [a])[i] == answers[i];
  }

  lemma FaithfulMore(answers: seq<Answer>, a: Answer)
    requires AllFaithful(answers) && Faithful(answers, a)
    ensures AllFaithful(answers + [a])
  {
    var more := answers + [a];
    forall i | 0 <= i < |more| ensures Faithful(more, more[i]) {
      var b := more[i];
      if b.source == Cached || b.source == Waited { GaveMore(answers, a, b.verification, b.statusCode, b.body, b.paymentResponse); }
    }
  }

  lemma EntriesMore(answers: seq<Answer>, a: Answer, cache: map<Id, Entry>)
    requires EntriesOk(answers, cache)
    ensures EntriesOk(answers + [a], cache)
  {
    forall id | id in cache ensures EntryOk(answers + [a], id, cache[id]) {
      var entry := cache[id];
      if entry.status != Executing { GaveMore(answers, a, id, entry.statusCode.value, entry.body, entry.paymentResponse); }
    }
  }

  /** One more answer that is not an execution's own. */
  lemma OthersMore(answers: seq<Answer>, a: Answer, cache: map<Id, Entry>)
    requires OwnOnce(answers, cache) && a.source != Own && a.verification in cache && cache[a.verification].status != Executing
    ensures OwnOnce(answers + [a], cache)
  {
  }

  /** One more answer that is not an execution's own and repeats one that is. */
  lemma AnsweredKeeps(st: State, a: Answer)
    requires Inv(st) && a.source != Own && Faithful(st.answers, a)
    requires a.verification in st.cache && st.cache[a.verification].status != Executing
    ensures Inv(st.(answers := st.answers + [a]))
  {
    hide OnceOnly, OwnOnce, EntriesOk, WokenOk, AllFaithful, Faithful;
    EntriesMore(st.answers, a, st.cache);
    FaithfulMore(st.answers, a);
    OthersMore(st.answers, a, st.cache);
  }

  /** An entry rewritten without ending or starting its execution. */
  lemma EntryRewritten(st: State, verification: Id, entry: Entry)
    requires Inv(st) && verification in st.cache && entry.status == Executing == st.cache[verification].status
    ensures Inv(st.(cache := st.cache[verification := entry]))
  {
    hide AllFaithful, EntryOk;
    assert EntryOk(st.answers, verification, entry) by { StillExecuting(st.answers, verification, entry); }
  }

  lemma StillExecuting(answers: seq<Answer>, verification: Id, entry: Entry)
    requires entry.status == Executing
    ensures EntryOk(answers, verification, entry)
  {
  }

  lemma StartsOnce(runs: seq<Id>, running: map<nat, Id>, cache: map<Id, Entry>, request: nat, verification: Id, entry: Entry)
    requires OnceOnly(runs, running, cache) && request !in running && verification !in cache && entry.status == Executing
    ensures OnceOnly(runs + [verification], running[request := verification], cache[verification := entry])
  {
    var more := runs + [verification];
    assert forall id :: id in more <==> id in runs || id == verification;
  }

  lemma FirstArrival(st: State, request: nat, verification: Id)
    requires Inv(st) && request !in st.running && verification !in st.cache
    ensures Inv(Next(st, Arrive(request, verification)))
  {
    hide OnceOnly, AllFaithful, EntryOk;
    var entry := Entry(Executing, None, None, None, []);
    StartsOnce(st.runs, st.running, st.cache, request, verification, entry);
    StillExecuting(st.answers, verification, entry);
  }

  lemma ArriveKeeps(st: State, request: nat, verification: Id)
    requires Inv(st)
    ensures Inv(Next(st, Arrive(request, verification)))
  {
    hide OnceOnly, OwnOnce, WokenOk, AllFaithful;
    if request in st.running {
    } else if verification !in st.cache {
      FirstArrival(st, request, verification);
    } else if st.cache[verification].status == Executing {
      var entry := st.cache[verification];
      EntryRewritten(st, verification, entry.(waiters := entry.waiters + [request]));
    } else {
      AnsweredKeeps(st, Replay(request, verification, st.cache[verification], Cached));
    }
  }

  lemma FewerRunning(st: State, request: nat)
    requires Inv(st)
    ensures Inv(st.(running := st.running - {request}))
  {
    hide OwnOnce, EntriesOk, WokenOk, AllFaithful;
  }

  lemma WakeKeeps(st: State, request: nat)
    requires Inv(st)
    ensures Inv(Next(st, Wake(request)))
  {
    hide OnceOnly, OwnOnce, AllFaithful;
    if request in st.woken {
      var verification := st.woken[request];
      var a := Replay(request, verification, st.cache[verification], Waited);
      AnsweredKeeps(st, a);
      hide EntryOk;
    }
  }

  lemma OwnMore(answers: seq<Answer>, a: Answer, cache: map<Id, Entry>, entry: Entry)
    requires OwnOnce(answers, cache) && a.source == Own && a.verification in cache && cache[a.verification].status == Executing
    requires entry.status != Executing
    ensures OwnOnce(answers + [a], cache[a.verification := entry])
  {
  }

  lemma RunsOn(runs: seq<Id>, running: map<nat, Id>, cache: map<Id, Entry>, request: nat, entry: Entry)
    requires OnceOnly(runs, running, cache) && request in running
    ensures OnceOnly(runs, running - {request}, cache[running[request] := entry])
  {
  }

  lemma WokenMore(woken: map<nat, Id>, cache: map<Id, Entry>, waiters: seq<nat>, verification: Id, entry: Entry)
    requires WokenOk(woken, cache) && entry.status != Executing
    ensures WokenOk(Released(woken, waiters, verification), cache[verification := entry])
  {
  }

  lemma FinalEntry(answers: seq<Answer>, cache: map<Id, Entry>, a: Answer, entry: Entry)
    requires EntriesOk(answers, cache) && a.source == Own && entry.statusCode == Some(a.statusCode)
    requires entry.body == a.body && entry.paymentResponse == a.paymentResponse
    ensures EntriesOk(answers + [a], cache[a.verification := entry])
  {
    EntriesMore(answers, a, cache);
    assert (answers + [a])[|answers|] == a;
    assert EntryOk(answers + [a], a.verification, entry);
    hide EntryOk;
  }

  lemma FinishKeeps(st: State, request: nat, done: Entry)
    requires Inv(st) && request in st.running && st.running[request] in st.cache && done.status != Executing && done.statusCode.Some?
    ensures Inv(Finish(st, request, done))
  {
    hide OwnOnce, EntriesOk, WokenOk, AllFaithful;
    var verification := st.running[request];
    var a := Replay(request, verification, done, Own);
    var final := done.(waiters := []);
    assert st.cache[verification].status == Executing;
    OwnMore(st.answers, a, st.cache, final);
    RunsOn(st.runs, st.running, st.cache, request, final);
    hide OnceOnly;
    WokenMore(st.woken, st.cache, st.cache[verification].waiters, verification, final);
    FinalEntry(st.answers, st.cache, a, final);
    FaithfulMore(st.answers, a);
  }

  lemma EventKeeps(st: State, e: Event)
    requires Inv(st)
    ensures Inv(Next(st, e))
  {
    hide Inv, Finish;
    match e
    case Arrive(request, verification) => ArriveKeeps(st, request, verification);
    case Settled(request, status, body, response) =>
      if request in st.running && st.running[request] in st.cache {
        var code := if status.Some? then status.value else 200;
        FinishKeeps(st, request, Entry(if code < 400 then ServedSuccess else ServedError, Some(code), body, Some(response), []));
      }
    case Unsettled(request, failure, response) =>
      if request in st.running && st.running[request] in st.cache {
        FinishKeeps(st, request, Entry(ServedError, Some(502), Some(failure), Some(response), []));
      }
    case Escaped(request) => FewerRunning(st, request);
    case Wake(request) => WakeKeeps(st, request);
  }

  lemma {:induction false} RunKeeps(events: seq<Event>)
    ensures Inv(Run(events))
    decreases |events|
  {
    hide Next;
    if events != [] {
      hide Inv;
      RunKeeps(events[..|events| - 1]);
      EventKeeps(Run(events[..|events| - 1]), events[|events| - 1]);
    }
  }

  /**
   * Single execution, over every interleaving: the handler runs at most once per verification id, and every answer
   * from the cache or to a waiter carries the status, body and payment response of that one execution.
   */
  lemma SingleExecution(events: seq<Event>)
    ensures Distinct(Run(events).runs)
    ensures forall i :: 0 <= i < |Run(events).answers| ==> Faithful(Run(events).answers, Run(events).answers[i])
    ensures forall i, j :: 0 <= i < j < |Run(events).answers| && Run(events).answers[i].source == Own && Run(events).answers[j].source == Own ==>
      Run(events).answers[i].verification != Run(events).answers[j].verification
  {
    hide Run, Faithful, EntriesOk;
    RunKeeps(events);
  }

  /** Nobody is executing, yet the entry says so. */
  ghost predicate Abandoned(st: State, verification: Id)
  {
    && verification in st.cache && st.cache[verification].status == Executing
    && forall r :: r in st.running ==> st.running[r] != verification
  }

  /** The verifications whose executing request an exception escaped from. */
  function EscapedFrom(events: seq<Event>): set<Id>
  {
    if events == [] then {} else
      var n := |events| - 1;
      var st, e := Run(events[..n]), events[n];
      EscapedFrom(events[..n]) + if e.Escaped? && e.request in st.running then {st.running[e.request]} else {}
  }

  lemma FinishAbandonsNone(st: State, request: nat, done: Entry, verification: Id)
    requires request in st.running && st.running[request] in st.cache && done.status != Executing
    ensures Abandoned(Finish(st, request, done), verification) <==> Abandoned(st, verification)
  {
    hide Released, Replay;
    var running := st.running - {request};
    assert forall r :: r in running <==> r in st.running && r != request;
    if verification == st.running[request] {
      assert !Abandoned(st, verification);
    } else {
      assert Finish(st, request, done).running == running;
    }
  }

  lemma EscapeAbandonsOne(st: State, request: nat, verification: Id)
    requires OnceOnly(st.runs, st.running, st.cache) && request in st.running
    ensures Abandoned(st.(running := st.running - {request}), verification) <==>
      Abandoned(st, verification) || st.running[request] == verification
  {
    var running := st.running - {request};
    if st.running[request] == verification {
      forall r | r in running ensures running[r] != verification {}
    } else if verification in st.cache && !Abandoned(st, verification) && st.cache[verification].status == Executing {
      var r :| r in st.running && st.running[r] == verification;
      assert r in running && running[r] == verification;
    }
  }

  /** One event abandons exactly the verification whose executing request an exception escapes from. */
  lemma EventAbandons(st: State, e: Event, verification: Id)
    requires Inv(st)
    ensures Abandoned(Next(st, e), verification) <==>
      Abandoned(st, verification) || (e.Escaped? && e.request in st.running && st.running[e.request] == verification)
  {
    hide OwnOnce, EntriesOk, WokenOk, AllFaithful, Distinct, Finish;
    match e
    case Arrive(request, arriving) =>
      if request !in st.running && arriving !in st.cache {
        assert Next(st, e).running[request] == arriving;
        assert forall r :: r in st.running ==> r in Next(st, e).running && Next(st, e).running[r] == st.running[r];
      }
    case Settled(request, status, body, response) =>
      if request in st.running {
        var code := if status.Some? then status.value else 200;
        FinishAbandonsNone(st, request, Entry(if code < 400 then ServedSuccess else ServedError, Some(code), body, Some(response), []), verification);
      }
    case Unsettled(request, failure, response) =>
      if request in st.running { FinishAbandonsNone(st, request, Entry(ServedError, Some(502), Some(failure), Some(response), []), verification); }
    case Escaped(request) =>
      if request in st.running { EscapeAbandonsOne(st, request, verification); } else { assert st.running - {request} == st.running; }
    case Wake(request) =>
  }

  /**
   * The rule has a price. Over every interleaving an entry is left executing for good if and only if an exception
   * escaped from the request that was executing it; and then nobody who asks for that verification is ever answered.
   */
  lemma {:induction false} AbandonedIffEscaped(events: seq<Event>, verification: Id)
    ensures Abandoned(Run(events), verification) <==> verification in EscapedFrom(events)
    ensures verification in EscapedFrom(events) ==>
      forall i :: 0 <= i < |Run(events).answers| ==> Run(events).answers[i].verification != verification
    decreases |events|
  {
    hide Next, Inv;
    RunKeeps(events);
    if events != [] {
      var n := |events| - 1;
      RunKeeps(events[..n]);
      AbandonedIffEscaped(events[..n], verification);
      EventAbandons(Run(events[..n]), events[n], verification);
    }
    if Abandoned(Run(events), verification) { Unanswered(Run(events), verification); }
  }

  lemma Unanswered(st: State, verification: Id)
    requires Inv(st) && Abandoned(st, verification)
    ensures forall i :: 0 <= i < |st.answers| ==> st.answers[i].verification != verification
  {
    hide OnceOnly, EntriesOk, WokenOk, AllFaithful;
  }

  /** A request whose execution an exception ends, and a second one for the same verification, which waits for good. */
  lemma StrandedWaiter(verification: Id)
    ensures var st := Run([Arrive(0, verification), Escaped(0), Arrive(1, verification)]);
      Abandoned(st, verification) && st.cache[verification].waiters == [1] && st.answers == []
  {
    var events := [Arrive(0, verification), Escaped(0), Arrive(1, verification)];
    assert events[..2] == [Arrive(0, verification), Escaped(0)] && events[..2][..1] == [Arrive(0, verification)];
    assert events[..2][..1][..0] == [];
    assert Run(events[..2][..1]) == Next(Start, Arrive(0, verification));
    assert Run(events[..2]) == Next(Run(events[..2][..1]), Escaped(0));
  }
}
