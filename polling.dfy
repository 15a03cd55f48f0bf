/**
 * The state-change wait of the Terraform plugin SDK, as both waits
 * configure it (one target occurrence suffices). Each poll runs the refresh
 * once: a refresh error fails the wait; a result that is not found counts
 * towards a limit of not-found polls; a target state ends the wait; a
 * pending state keeps it going; any other state fails it. The timeout is a
 * budget of polls.
 */
module Polling {
  import opened Wrappers
  import opened Objects
  import opened Foreign
  import opened Cluster
  import opened Readiness

  datatype StateChangeConf = StateChangeConf(pending: seq<string>, target: seq<string>, notFoundChecks: nat)

  /** The SDK's limit on consecutive not-found polls when none is configured. */
  const DefaultNotFoundChecks: nat := 20

  const ReadyConf: StateChangeConf := StateChangeConf([Pending], [Ready], DefaultNotFoundChecks)
  const DeleteConf: StateChangeConf := StateChangeConf([Deleting], [Deleted], DefaultNotFoundChecks)

  datatype WaitError =
    | RefreshFailed(fault: Fault)
    | NotFoundExceeded(retries: nat)
    | UnexpectedState(state: string)
    | TimedOut(lastState: string)

  /** The refresh the readiness wait runs on each Get reply (the deletion wait runs DeleteRefresh). */
  function ReadyCheck(lib: Library): Reply -> RefreshResult {
    (got: Reply) => ReadyRefresh(lib, got)
  }

  datatype Tick = Continue(notFound: nat) | Done | Stop(error: WaitError)

  /** What one refresh result does to the wait, given the not-found polls so far. */
  function Step(conf: StateChangeConf, notFound: nat, r: RefreshResult): Tick {
    if r.fault.Some? then Stop(RefreshFailed(r.fault.value))
    else if !r.found && |conf.target| == 0 then Done
    else if !r.found then
      if notFound + 1 > conf.notFoundChecks then Stop(NotFoundExceeded(notFound + 1)) else Continue(notFound + 1)
    else if r.state in conf.target then Done
    else if r.state in conf.pending then Continue(0)
    else if |conf.pending| > 0 then Stop(UnexpectedState(r.state))
    else Continue(0)
  }

  /** How a wait ends (None: the target was reached) and how many polls it took. */
  datatype WaitRun = WaitRun(outcome: Option<WaitError>, polls: nat)

  /** The wait over a script of Get replies, with budget polls left. */
  function Waited(conf: StateChangeConf, classify: Reply -> RefreshResult, replies: seq<Reply>, budget: nat, notFound: nat, lastState: string): (run: WaitRun)
    ensures run.polls <= budget
    ensures budget > 0 ==> run.polls >= 1
    decreases budget
  {
    if budget == 0 then WaitRun(Some(TimedOut(lastState)), 0)
    else
      var r := classify(Answer(replies));
      match Step(conf, notFound, r)
      case Done => WaitRun(None, 1)
      case Stop(e) => WaitRun(Some(e), 1)
      case Continue(n) =>
        var rest := Waited(conf, classify, Rest(replies), budget - 1, n, r.state);
        WaitRun(rest.outcome, rest.polls + 1)
  }

  /** The caller's object after n polls: the last object a Get returned, if any. */
  function Fetched(replies: seq<Reply>, n: nat, current: Unstructured): Unstructured {
    if n == 0 then current
    else Fetched(Rest(replies), n - 1, if Answer(replies).Success? then Answer(replies).value else current)
  }

  /** A Get that returned an object at the n-th poll leaves that object behind. */
  lemma {:induction false} FetchedLast(replies: seq<Reply>, n: nat, current: Unstructured)
    requires n >= 1 && Answer(Drop(replies, n - 1)).Success?
    ensures Fetched(replies, n, current) == Answer(Drop(replies, n - 1)).value
    decreases n
  {
    if n > 1 {
      FetchedLast(Rest(replies), n - 1, if Answer(replies).Success? then Answer(replies).value else current);
    }
  }

  /** One run of the refresh closure: Get the object into the caller's object, then classify the reply. */
  method Refresh(classify: Reply -> RefreshResult, c: Client, key: ObjectKey, obj: ObjectRef) returns (r: RefreshResult)
    modifies c, obj
    ensures r == classify(Answer(old(c.replies)))
    ensures c.replies == Rest(old(c.replies)) && c.calls == old(c.calls) + [Call(GetCall, key, None)]
    ensures obj.value == if Answer(old(c.replies)).Success? then Answer(old(c.replies)).value else old(obj.value)
  {
    var err := c.Get(key, obj);
    var got: Reply := if err.None? then Success(obj.value) else Failure(err.value);
    r := classify(got);
  }

  lemma DropRest(replies: seq<Reply>, n: nat)
    ensures Drop(replies, n + 1) == Rest(Drop(replies, n))
    decreases n
  {
    if n > 0 {
      DropRest(Rest(replies), n - 1);
    }
  }

  /**
   * Where a wait stands after `used` polls, measured against the whole wait
   * from the start (script replies0, caller's object value0, call log
   * calls0): the rest of the wait ends as the whole wait does, the script
   * and the log have advanced by `used` Gets, and the object ends where the
   * whole wait leaves it.
   */
  ghost predicate OnTrack(conf: StateChangeConf, classify: Reply -> RefreshResult, key: ObjectKey, budget: nat,
                          replies0: seq<Reply>, calls0: seq<Call>, value0: Unstructured,
                          used: nat, notFound: nat, last: string,
                          replies: seq<Reply>, calls: seq<Call>, value: Unstructured)
  {
    var run0 := Waited(conf, classify, replies0, budget, 0, "");
    used <= budget &&
    var rest := Waited(conf, classify, replies, budget - used, notFound, last);
    rest.outcome == run0.outcome && used + rest.polls == run0.polls &&
    replies == Drop(replies0, used) && calls == calls0 + Gets(key, used) &&
    Fetched(replies, rest.polls, value) == Fetched(replies0, run0.polls, value0)
  }

  /** The state a whole wait leaves behind, ending with outcome err. */
  ghost predicate Finished(conf: StateChangeConf, classify: Reply -> RefreshResult, key: ObjectKey, budget: nat,
                           replies0: seq<Reply>, calls0: seq<Call>, value0: Unstructured,
                           err: Option<WaitError>, replies: seq<Reply>, calls: seq<Call>, value: Unstructured)
  {
    var run := Waited(conf, classify, replies0, budget, 0, "");
    err == run.outcome && replies == Drop(replies0, run.polls) &&
    calls == calls0 + Gets(key, run.polls) && value == Fetched(replies0, run.polls, value0)
  }

  /** One poll of the wait loop: refresh, then decide whether the wait ends here. */
  method Poll(conf: StateChangeConf, classify: Reply -> RefreshResult, c: Client, obj: ObjectRef, key: ObjectKey, budget: nat,
              ghost replies0: seq<Reply>, ghost calls0: seq<Call>, ghost value0: Unstructured,
              used: nat, notFound: nat, last: string)
    returns (tick: Tick, state: string)
    requires used < budget
    requires OnTrack(conf, classify, key, budget, replies0, calls0, value0, used, notFound, last, c.replies, c.calls, obj.value)
    modifies c, obj
    ensures tick.Continue? ==>
      OnTrack(conf, classify, key, budget, replies0, calls0, value0, used + 1, tick.notFound, state, c.replies, c.calls, obj.value)
    ensures tick.Done? ==> Finished(conf, classify, key, budget, replies0, calls0, value0, None, c.replies, c.calls, obj.value)
    ensures tick.Stop? ==> Finished(conf, classify, key, budget, replies0, calls0, value0, Some(tick.error), c.replies, c.calls, obj.value)
  {
    DropRest(replies0, used);
    assert Gets(key, used + 1) == Gets(key, used) + [Call(GetCall, key, None)];
    Advance(conf, classify, c.replies, budget - used, notFound, last, obj.value);
    var r := Refresh(classify, c, key, obj);
    tick := Step(conf, notFound, r);
    state := r.state;
  }

  /** WaitForState: poll until the wait ends. */
  method WaitForState(conf: StateChangeConf, classify: Reply -> RefreshResult, c: Client, obj: ObjectRef, key: ObjectKey, budget: nat)
    returns (err: Option<WaitError>)
    modifies c, obj
    ensures var run := Waited(conf, classify, old(c.replies), budget, 0, "");
      err == run.outcome &&
      c.replies == Drop(old(c.replies), run.polls) &&
      c.calls == old(c.calls) + Gets(key, run.polls) &&
      obj.value == Fetched(old(c.replies), run.polls, old(obj.value))
  {
    var notFound: nat := 0;
    var last := "";
    var used: nat := 0;
    while true
      invariant OnTrack(conf, classify, key, budget, old(c.replies), old(c.calls), old(obj.value), used, notFound, last, c.replies, c.calls, obj.value)
      decreases budget - used
    {
      if used == budget {
        return Some(TimedOut(last));
      }
      var tick, state := Poll(conf, classify, c, obj, key, budget, old(c.replies), old(c.calls), old(obj.value), used, notFound, last);
      if tick.Done? {
        return None;
      } else if tick.Stop? {
        return Some(tick.error);
      }
      used, notFound, last := used + 1, tick.notFound, state;
    }
  }

  /**
   * One poll of a wait with budget left: a target or a failure ends the
   * wait after this poll; otherwise the rest of the wait decides, one poll
   * later, with the object the poll fetched.
   */
  lemma Advance(conf: StateChangeConf, classify: Reply -> RefreshResult, replies: seq<Reply>, budget: nat, notFound: nat, last: string, current: Unstructured)
    requires budget > 0
    ensures var r := classify(Answer(replies));
      var tick := Step(conf, notFound, r);
      var run := Waited(conf, classify, replies, budget, notFound, last);
      var fetched := if Answer(replies).Success? then Answer(replies).value else current;
      (tick.Done? ==> run == WaitRun(None, 1)) &&
      (tick.Stop? ==> run == WaitRun(Some(tick.error), 1)) &&
      (tick.Continue? ==>
        var next := Waited(conf, classify, Rest(replies), budget - 1, tick.notFound, r.state);
        run == WaitRun(next.outcome, next.polls + 1)) &&
      Fetched(replies, run.polls, current) == Fetched(Rest(replies), run.polls - 1, fetched)
  {
  }

  // ---------------------------------------------------------------------
  // What a wait promises.

  /**
   * A wait that succeeds saw its target: the last poll's result is found
   * and in the target states (or, with no target, not found).
   */
  lemma {:induction false} SuccessSawTarget(conf: StateChangeConf, classify: Reply -> RefreshResult, replies: seq<Reply>, budget: nat, notFound: nat, last: string)
    requires Waited(conf, classify, replies, budget, notFound, last).outcome.None?
    ensures var run := Waited(conf, classify, replies, budget, notFound, last);
      var r := classify(Answer(Drop(replies, run.polls - 1)));
      run.polls >= 1 && r.fault.None? && ((r.found && r.state in conf.target) || (!r.found && |conf.target| == 0))
    decreases budget
  {
    var r := classify(Answer(replies));
    match Step(conf, notFound, r)
    case Done =>
    case Stop(_) =>
    case Continue(n) =>
      SuccessSawTarget(conf, classify, Rest(replies), budget - 1, n, r.state);
      var rest := Waited(conf, classify, Rest(replies), budget - 1, n, r.state);
      DropRest(replies, rest.polls - 1);
      assert Drop(replies, rest.polls) == Drop(Rest(replies), rest.polls - 1);
  }

  /** A wait that times out used its whole budget of polls. */
  lemma {:induction false} TimeoutUsesBudget(conf: StateChangeConf, classify: Reply -> RefreshResult, replies: seq<Reply>, budget: nat, notFound: nat, last: string)
    requires Waited(conf, classify, replies, budget, notFound, last).outcome.Some?
    requires Waited(conf, classify, replies, budget, notFound, last).outcome.value.TimedOut?
    ensures Waited(conf, classify, replies, budget, notFound, last).polls == budget
    decreases budget
  {
    if budget > 0 {
      var r := classify(Answer(replies));
      TimeoutUsesBudget(conf, classify, Rest(replies), budget - 1, Step(conf, notFound, r).notFound, r.state);
    }
  }

  /** A refresh that fails ends the wait at once with that failure. */
  lemma FaultEndsWait(conf: StateChangeConf, classify: Reply -> RefreshResult, replies: seq<Reply>, budget: nat, notFound: nat, last: string)
    requires budget > 0 && classify(Answer(replies)).fault.Some?
    ensures Waited(conf, classify, replies, budget, notFound, last) == WaitRun(Some(RefreshFailed(classify(Answer(replies)).fault.value)), 1)
  {
  }

  /**
   * With a target and enough budget, a run of polls that find nothing gives
   * up once the not-found limit is exceeded, after exactly the polls needed.
   */
  lemma {:induction false} NotFoundGivesUp(conf: StateChangeConf, classify: Reply -> RefreshResult, replies: seq<Reply>, budget: nat, notFound: nat, last: string)
    requires |conf.target| > 0 && notFound <= conf.notFoundChecks
    requires budget > conf.notFoundChecks - notFound
    requires forall i :: 0 <= i <= conf.notFoundChecks - notFound ==>
      !classify(Answer(Drop(replies, i))).found && classify(Answer(Drop(replies, i))).fault.None?
    ensures Waited(conf, classify, replies, budget, notFound, last) ==
      WaitRun(Some(NotFoundExceeded(conf.notFoundChecks + 1)), conf.notFoundChecks + 1 - notFound)
    decreases conf.notFoundChecks - notFound
  {
    assert Drop(replies, 0) == replies;
    var r := classify(Answer(replies));
    if notFound < conf.notFoundChecks {
      forall i | 0 <= i <= conf.notFoundChecks - (notFound + 1)
        ensures !classify(Answer(Drop(Rest(replies), i))).found && classify(Answer(Drop(Rest(replies), i))).fault.None?
      {
        assert Drop(replies, i + 1) == Drop(Rest(replies), i);
      }
      NotFoundGivesUp(conf, classify, Rest(replies), budget - 1, notFound + 1, r.state);
    }
  }

  /**
   * An object that stays in a pending state keeps the wait going until the
   * budget runs out; the timeout reports that state.
   */
  lemma {:induction false} StuckPendingTimesOut(conf: StateChangeConf, classify: Reply -> RefreshResult, replies: seq<Reply>, budget: nat, notFound: nat, last: string, state: string)
    requires state in conf.pending && state !in conf.target
    requires forall i :: 0 <= i < budget ==> classify(Answer(Drop(replies, i))) == RefreshResult(true, state, None)
    ensures Waited(conf, classify, replies, budget, notFound, last) ==
      WaitRun(Some(TimedOut(if budget == 0 then last else state)), budget)
    decreases budget
  {
    if budget > 0 {
      assert Drop(replies, 0) == replies;
      forall i | 0 <= i < budget - 1
        ensures classify(Answer(Drop(Rest(replies), i))) == RefreshResult(true, state, None)
      {
        assert Drop(replies, i + 1) == Drop(Rest(replies), i);
      }
      StuckPendingTimesOut(conf, classify, Rest(replies), budget - 1, 0, state, state);
    }
  }
}
