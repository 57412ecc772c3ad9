/**
  Session accounting of the server: the accept loop, the session goroutines and one Shutdown
  call, interleaved in any way. Each connection moves through fixed stages; the semaphore,
  the wait group, the listener and the shutdown flag are the shared state.
*/
module Accounting {
  import opened Prelude

  /** Where an accepted connection is. The first three stages are the accept loop's. */
  datatype Stage =
    | Offered     // accepted, no permit asked for yet
    | Permitted   // holds a permit, not yet in the wait group
    | Added       // in the wait group, goroutine not yet started
    | Running
    | Handled     // handler is back, permit not yet released
    | Released    // permit released, still in the wait group
    | Finished
    | Rejected

  predicate HoldsPermit(st: Stage) { st.Permitted? || st.Added? || st.Running? || st.Handled? }
  predicate InGroup(st: Stage) { st.Added? || st.Running? || st.Handled? || st.Released? }
  predicate Started(st: Stage) { st.Running? || st.Handled? || st.Released? || st.Finished? }
  predicate Undecided(st: Stage) { st.Offered? || st.Permitted? || st.Added? }
  predicate Over(st: Stage) { st.Finished? || st.Rejected? }

  datatype Loop = Starting | Accepting | Deciding | Failed | Stopped(ok: bool)

  datatype Shutdown =
    | NotCalled
    | Flagged(seen: bool)   // flag set; `seen` says whether Serve had stored its listener
    | Waiting
    | Back(ok: bool)

  /** `max` is the configured limit, None when there is no semaphore. */
  datatype State = State(
    loop: Loop, stored: bool, closed: bool, flag: bool, down: Shutdown,
    sem: nat, group: int, waited: bool,
    conns: seq<Stage>,
    starts: multiset<nat>,      // one entry per handler started
    atClose: nat,               // sessions started when Shutdown closed the listener
    heldAtClose: bool,          // the loop had a connection in hand at that moment
    atWait: nat,                // connections accepted when the wait for the group was over
    heldAtWait: bool)           // the loop had one of them in hand

  const FRESH_SERVER :=
    State(Starting, false, false, false, NotCalled, 0, 0, false, [], multiset{}, 0, false, 0, false)

  datatype Move =
    | Store | Accept | AcceptFails | CheckFlag
    | Acquire | Reject | Add | Spawn
    | Return(id: nat) | Release(id: nat) | Leave(id: nat)
    | CallShutdown | CloseListener | WaitOver | ReturnNil | Expire

  predicate Free(max: Option<nat>, s: State) { max.None? || s.sem < max.value }

  predicate Last(s: State, st: Stage) {
    s.loop.Deciding? && |s.conns| > 0 && s.conns[|s.conns| - 1] == st
  }

  predicate At(s: State, id: nat, st: Stage) { id < |s.conns| && s.conns[id] == st }

  predicate Enabled(max: Option<nat>, s: State, m: Move) {
    match m
    case Store => s.loop.Starting?
    case Accept => s.loop.Accepting? && !s.closed
    case AcceptFails => s.loop.Accepting?
    case CheckFlag => s.loop.Failed?
    case Acquire => Last(s, Offered) && Free(max, s)
    case Reject => Last(s, Offered) && !Free(max, s)
    case Add => Last(s, Permitted)
    case Spawn => Last(s, Added)
    case Return(id) => At(s, id, Running)
    case Release(id) => At(s, id, Handled) && (max.Some? ==> s.sem > 0)
    case Leave(id) => At(s, id, Released)
    case CallShutdown => s.down.NotCalled?
    case CloseListener => s.down.Flagged?
    case WaitOver => (s.down.Waiting? || s.down.Back?) && !s.waited && s.group == 0
    case ReturnNil => s.down.Waiting? && s.waited
    case Expire => s.down.Waiting?
  }

  function Count(conns: seq<Stage>, p: Stage -> bool): nat {
    if conns == [] then 0 else (if p(conns[0]) then 1 else 0) + Count(conns[1..], p)
  }

  function SetLast(s: State, st: Stage): State
    requires |s.conns| > 0
  {
    s.(conns := s.conns[|s.conns| - 1 := st])
  }

  function Apply(max: Option<nat>, s: State, m: Move): State
    requires Enabled(max, s, m)
  {
    match m
    case Store => s.(loop := Accepting, stored := true)
    case Accept => s.(loop := Deciding, conns := s.conns + [Offered])
    case AcceptFails => s.(loop := Failed)
    case CheckFlag => s.(loop := Stopped(s.flag))
    case Acquire => SetLast(s, Permitted).(sem := if max.Some? then s.sem + 1 else s.sem)
    case Reject => SetLast(s, Rejected).(loop := Accepting)
    case Add => SetLast(s, Added).(group := s.group + 1)
    case Spawn => SetLast(s, Running).(loop := Accepting, starts := s.starts + multiset{|s.conns| - 1})
    case Return(id) => s.(conns := s.conns[id := Handled])
    case Release(id) => s.(conns := s.conns[id := Released], sem := if max.Some? then s.sem - 1 else s.sem)
    case Leave(id) => s.(conns := s.conns[id := Finished], group := s.group - 1)
    case CallShutdown => s.(down := Flagged(s.stored), flag := true)
    case CloseListener =>
      if s.down.seen then
        s.(down := Waiting, closed := true, atClose := Count(s.conns, Started), heldAtClose := s.loop.Deciding?)
      else s.(down := Waiting)
    case WaitOver => s.(waited := true, atWait := |s.conns|, heldAtWait := s.loop.Deciding?)
    case ReturnNil => s.(down := Back(true))
    case Expire => s.(down := Back(false))
  }

  /** The stage a move puts one connection into, and which connection. */
  function Target(m: Move): Option<Stage> {
    match m
    case Acquire => Some(Permitted) case Reject => Some(Rejected) case Add => Some(Added) case Spawn => Some(Running)
    case Return(_) => Some(Handled) case Release(_) => Some(Released) case Leave(_) => Some(Finished)
    case _ => None
  }

  function Subject(s: State, m: Move): nat
    requires |s.conns| > 0
  {
    if m.Return? || m.Release? || m.Leave? then m.id else |s.conns| - 1
  }

  lemma MovesOne(max: Option<nat>, s: State, m: Move)
    requires Enabled(max, s, m) && m != Accept
    ensures if Target(m).Some?
            then |s.conns| > 0 && Subject(s, m) < |s.conns|
                 && Apply(max, s, m).conns == s.conns[Subject(s, m) := Target(m).value]
            else Apply(max, s, m).conns == s.conns
  {
  }

  ghost predicate Legal(max: Option<nat>, s: State, run: seq<Move>)
    decreases |run|
  {
    run == [] || (Enabled(max, s, run[0]) && Legal(max, Apply(max, s, run[0]), run[1..]))
  }

  ghost function After(max: Option<nat>, s: State, run: seq<Move>): State
    requires Legal(max, s, run)
    decreases |run|
  {
    if run == [] then s else After(max, Apply(max, s, run[0]), run[1..])
  }

  // ---- counting ----

  lemma {:induction false} CountSet(conns: seq<Stage>, k: nat, st: Stage, p: Stage -> bool)
    requires k < |conns|
    ensures Count(conns[k := st], p) == Count(conns, p) - (if p(conns[k]) then 1 else 0) + (if p(st) then 1 else 0)
  {
    if k > 0 {
      CountSet(conns[1..], k - 1, st, p);
      assert conns[k := st][1..] == conns[1..][k - 1 := st];
    }
  }

  lemma {:induction false} CountAppend(conns: seq<Stage>, st: Stage, p: Stage -> bool)
    ensures Count(conns + [st], p) == Count(conns, p) + if p(st) then 1 else 0
  {
    if conns != [] {
      CountAppend(conns[1..], st, p);
      assert (conns + [st])[1..] == conns[1..] + [st];
    }
  }

  lemma {:induction false} CountZero(conns: seq<Stage>, p: Stage -> bool, k: nat)
    requires k < |conns| && p(conns[k])
    ensures Count(conns, p) > 0
  {
    if k > 0 {
      CountZero(conns[1..], p, k - 1);
    }
  }

  lemma {:induction false} CountNone(conns: seq<Stage>, p: Stage -> bool)
    requires forall k :: 0 <= k < |conns| ==> !p(conns[k])
    ensures Count(conns, p) == 0
  {
    if conns != [] {
      CountNone(conns[1..], p);
    }
  }

  // ---- invariant ----

  ghost predicate Counts(max: Option<nat>, s: State) {
    && (max.Some? ==> s.sem == Count(s.conns, HoldsPermit) <= max.value)
    && s.group == Count(s.conns, InGroup)
  }

  ghost predicate StagesOk(s: State) {
    && (forall k :: 0 <= k < |s.conns| && Undecided(s.conns[k]) ==> k == |s.conns| - 1 && s.loop.Deciding?)
    && (s.loop.Deciding? ==> |s.conns| > 0 && Undecided(s.conns[|s.conns| - 1]))
    && (forall k :: 0 <= k < |s.conns| ==> s.starts[k] == if Started(s.conns[k]) then 1 else 0)
    && (forall k :: k >= |s.conns| ==> s.starts[k] == 0)
  }

  ghost predicate DownOk(s: State) {
    && (s.flag <==> !s.down.NotCalled?)
    && (s.loop.Starting? <==> !s.stored)
    && (s.down.Flagged? && s.down.seen ==> s.stored)
    && (s.closed ==> (s.down.Waiting? || s.down.Back?) && s.stored)
    && (s.loop == Stopped(true) ==> s.flag)
    && (s.waited ==> s.down.Waiting? || s.down.Back?)
    && (s.down == Back(true) ==> s.waited)
    && (s.closed ==> var n := Count(s.conns, Started);
          if s.heldAtClose then (if s.loop.Deciding? then n == s.atClose else s.atClose <= n <= s.atClose + 1)
          else !s.loop.Deciding? && n == s.atClose)
    && (s.waited ==> s.atWait <= |s.conns|)
    && (s.waited ==> forall k :: 0 <= k < s.atWait && (k < s.atWait - 1 || !s.heldAtWait) ==> Over(s.conns[k]))
    && (s.waited && s.closed ==> s.atWait == |s.conns| && (s.heldAtWait ==> s.heldAtClose))
    && (s.waited && s.closed && s.loop.Deciding? ==> s.heldAtWait)
  }

  ghost predicate Inv(max: Option<nat>, s: State) {
    Counts(max, s) && StagesOk(s) && DownOk(s)
  }

  predicate Fine(max: Option<nat>) { max.Some? ==> max.value > 0 }

  lemma InvStart(max: Option<nat>)
    ensures Inv(max, FRESH_SERVER)
  {
  }

  /** How the three counts move with one connection's stage. */
  lemma Recount(s: State, k: nat, st: Stage)
    requires k < |s.conns|
    ensures var conns := s.conns[k := st];
            && Count(conns, HoldsPermit) == Count(s.conns, HoldsPermit)
                 - (if HoldsPermit(s.conns[k]) then 1 else 0) + (if HoldsPermit(st) then 1 else 0)
            && Count(conns, InGroup) == Count(s.conns, InGroup)
                 - (if InGroup(s.conns[k]) then 1 else 0) + (if InGroup(st) then 1 else 0)
            && Count(conns, Started) == Count(s.conns, Started)
                 - (if Started(s.conns[k]) then 1 else 0) + (if Started(st) then 1 else 0)
  {
    CountSet(s.conns, k, st, HoldsPermit);
    CountSet(s.conns, k, st, InGroup);
    CountSet(s.conns, k, st, Started);
  }

  lemma KeepAccept(max: Option<nat>, s: State)
    requires Inv(max, s) && Enabled(max, s, Accept)
    ensures Inv(max, Apply(max, s, Accept))
  {
    CountAppend(s.conns, Offered, HoldsPermit);
    CountAppend(s.conns, Offered, InGroup);
  }

  lemma KeepDecide(max: Option<nat>, s: State, m: Move)
    requires Inv(max, s) && Enabled(max, s, m)
    requires m.Acquire? || m.Add?
    ensures Inv(max, Apply(max, s, m))
  {
    Recount(s, |s.conns| - 1, Target(m).value);
  }

  lemma KeepReject(max: Option<nat>, s: State)
    requires Inv(max, s) && Enabled(max, s, Reject)
    ensures Inv(max, Apply(max, s, Reject))
  {
    Recount(s, |s.conns| - 1, Rejected);
  }

  lemma KeepSpawn(max: Option<nat>, s: State)
    requires Inv(max, s) && Enabled(max, s, Spawn)
    ensures Inv(max, Apply(max, s, Spawn))
  {
    Recount(s, |s.conns| - 1, Running);
  }

  /** A session that moves on from a started stage keeps every fact about stages. */
  lemma SessionStages(s: State, id: nat, st: Stage)
    requires StagesOk(s) && DownOk(s) && id < |s.conns| && Started(s.conns[id]) && Started(st)
    requires InGroup(s.conns[id])
    ensures StagesOk(s.(conns := s.conns[id := st])) && DownOk(s.(conns := s.conns[id := st]))
  {
    Recount(s, id, st);
    var s' := s.(conns := s.conns[id := st]);
    forall k | 0 <= k < |s'.conns|
      ensures Undecided(s'.conns[k]) ==> k == |s'.conns| - 1 && s'.loop.Deciding?
      ensures s'.starts[k] == if Started(s'.conns[k]) then 1 else 0
    {
      assert Undecided(s.conns[k]) ==> k == |s.conns| - 1 && s.loop.Deciding?;
    }
  }

  lemma KeepSession(max: Option<nat>, s: State, m: Move)
    requires Inv(max, s) && Enabled(max, s, m)
    requires m.Return? || m.Release? || m.Leave?
    ensures Inv(max, Apply(max, s, m))
  {
    Recount(s, m.id, Target(m).value);
    SessionStages(s, m.id, Target(m).value);
  }

  /** When the group is empty nothing is between Add and the end of its session. */
  lemma EmptyGroup(max: Option<nat>, s: State, k: nat)
    requires Inv(max, s) && s.group == 0 && k < |s.conns|
    ensures Over(s.conns[k]) || (k == |s.conns| - 1 && s.loop.Deciding?)
  {
    if InGroup(s.conns[k]) {
      CountZero(s.conns, InGroup, k);
    }
  }

  lemma KeepDown(max: Option<nat>, s: State, m: Move)
    requires Inv(max, s) && Enabled(max, s, m)
    requires m.CallShutdown? || m.CloseListener? || m.WaitOver? || m.ReturnNil? || m.Expire?
    ensures Inv(max, Apply(max, s, m))
  {
    forall k | 0 <= k < |s.conns| && s.group == 0
      ensures Over(s.conns[k]) || (k == |s.conns| - 1 && s.loop.Deciding?)
    {
      EmptyGroup(max, s, k);
    }
  }

  lemma Keep(max: Option<nat>, s: State, m: Move)
    requires Inv(max, s) && Enabled(max, s, m)
    ensures Inv(max, Apply(max, s, m))
  {
    match m
    case Store =>
    case Accept => KeepAccept(max, s);
    case AcceptFails =>
    case CheckFlag =>
    case Acquire => KeepDecide(max, s, m);
    case Reject => KeepReject(max, s);
    case Add => KeepDecide(max, s, m);
    case Spawn => KeepSpawn(max, s);
    case Return(_) => KeepSession(max, s, m);
    case Release(_) => KeepSession(max, s, m);
    case Leave(_) => KeepSession(max, s, m);
    case _ => KeepDown(max, s, m);
  }

  lemma {:induction false} RunKeeps(max: Option<nat>, s: State, run: seq<Move>)
    requires Inv(max, s) && Legal(max, s, run)
    ensures Inv(max, After(max, s, run))
    decreases |run|
  {
    if run != [] {
      Keep(max, s, run[0]);
      RunKeeps(max, Apply(max, s, run[0]), run[1..]);
    }
  }

  // ---- main results ----

  /** In every run: the permits taken are those of the connections between acquire and release,
      never more than the limit; a connection is turned away exactly when all are taken; the
      wait group counts those between Add and Done; and every accepted connection that is not
      being decided was either rejected, without a handler, or handed to exactly one handler. */
  lemma Occupancy(max: Option<nat>, run: seq<Move>)
    requires Legal(max, FRESH_SERVER, run)
    ensures var s := After(max, FRESH_SERVER, run);
            && (max.Some? ==> s.sem == Count(s.conns, HoldsPermit) <= max.value)
            && (Last(s, Offered) ==>
                  (Enabled(max, s, Reject) <==> max.Some? && Count(s.conns, HoldsPermit) == max.value))
            && s.group == Count(s.conns, InGroup)
            && (forall k :: 0 <= k < |s.conns| && !(s.loop.Deciding? && k == |s.conns| - 1) ==>
                  s.starts[k] == if s.conns[k].Rejected? then 0 else 1)
  {
    InvStart(max);
    RunKeeps(max, FRESH_SERVER, run);
  }

  /** Releasing a permit never blocks: the semaphore holds this session's own. */
  lemma ReleaseNeverBlocks(max: Option<nat>, run: seq<Move>, id: nat)
    requires Legal(max, FRESH_SERVER, run) && At(After(max, FRESH_SERVER, run), id, Handled)
    ensures Enabled(max, After(max, FRESH_SERVER, run), Release(id))
  {
    InvStart(max);
    RunKeeps(max, FRESH_SERVER, run);
    CountZero(After(max, FRESH_SERVER, run).conns, HoldsPermit, id);
  }

  /** In every run: once Shutdown has closed the listener at most one more session starts, and
      only if the accept loop had a connection in hand at that moment. */
  lemma AtMostOneLateSession(max: Option<nat>, run: seq<Move>)
    requires Legal(max, FRESH_SERVER, run)
    ensures var s := After(max, FRESH_SERVER, run);
            s.closed ==> s.atClose <= Count(s.conns, Started) <= s.atClose + if s.heldAtClose then 1 else 0
  {
    InvStart(max);
    RunKeeps(max, FRESH_SERVER, run);
  }

  /** In every run: when Shutdown has returned nil, every connection accepted before its wait
      was over has been rejected or its session has ended, except the one the accept loop had
      in hand and had not yet added. If Shutdown closed the listener, those are all the
      connections there ever are, and that one was in hand at the close already. */
  lemma NilMeansDrained(max: Option<nat>, run: seq<Move>)
    requires Legal(max, FRESH_SERVER, run) && After(max, FRESH_SERVER, run).down == Back(true)
    ensures var s := After(max, FRESH_SERVER, run);
            && s.waited && s.atWait <= |s.conns|
            && (forall k :: 0 <= k < s.atWait && (k < s.atWait - 1 || !s.heldAtWait) ==> Over(s.conns[k]))
            && (s.closed ==> s.atWait == |s.conns| && (s.heldAtWait ==> s.heldAtClose))
  {
    InvStart(max);
    RunKeeps(max, FRESH_SERVER, run);
  }

  /** The run ends with more sessions started than it began with. */
  ghost predicate StartsMore(max: Option<nat>, s: State, run: seq<Move>) {
    Legal(max, s, run) && Count(After(max, s, run).conns, Started) > Count(s.conns, Started)
  }

  /** In every run: once Shutdown has closed the listener another session can still start
      exactly when the accept loop has a connection in hand, even if every permit is taken. */
  lemma LateSessionIff(max: Option<nat>, run: seq<Move>)
    requires Fine(max) && Legal(max, FRESH_SERVER, run) && After(max, FRESH_SERVER, run).closed
    ensures var s := After(max, FRESH_SERVER, run);
            (exists more :: StartsMore(max, s, more)) <==> s.loop.Deciding?
  {
    InvStart(max);
    RunKeeps(max, FRESH_SERVER, run);
    var s := After(max, FRESH_SERVER, run);
    if s.loop.Deciding? {
      var more := StartHeld(max, s);
      assert StartsMore(max, s, more);
    } else {
      forall more ensures !StartsMore(max, s, more) {
        if Legal(max, s, more) {
          NoneLeft(max, s, more);
        }
      }
    }
  }

  /** When every permit is taken some session can move on towards giving its own back. */
  lemma SomeoneHolds(max: Option<nat>, s: State) returns (m: Move)
    requires Fine(max) && Counts(max, s) && StagesOk(s) && Last(s, Offered) && !Free(max, s)
    ensures (m.Return? || m.Release?) && Enabled(max, s, m) && m.id < |s.conns| - 1
  {
    if forall k :: 0 <= k < |s.conns| ==> !HoldsPermit(s.conns[k]) {
      CountNone(s.conns, HoldsPermit);
      assert false;
    }
    var j :| 0 <= j < |s.conns| && HoldsPermit(s.conns[j]);
    assert Undecided(s.conns[j]) ==> j == |s.conns| - 1;
    m := if s.conns[j].Running? then Return(j) else Release(j);
  }

  /** A move that brings the connection in hand closer to its session, or frees a permit for it. */
  lemma Closer(max: Option<nat>, s: State) returns (m: Move)
    requires Fine(max) && Inv(max, s) && s.loop.Deciding? && !Last(s, Added)
    ensures Enabled(max, s, m) && (m == Acquire || m == Add || ((m.Return? || m.Release?) && m.id < |s.conns| - 1))
  {
    if Last(s, Permitted) {
      m := Add;
    } else if Free(max, s) {
      m := Acquire;
    } else {
      m := SomeoneHolds(max, s);
    }
  }

  lemma CloserStep(max: Option<nat>, s: State, m: Move)
    requires s.loop.Deciding? && Enabled(max, s, m)
    requires m == Acquire || m == Add || ((m.Return? || m.Release?) && m.id < |s.conns| - 1)
    ensures var s' := Apply(max, s, m);
            && s'.loop.Deciding? && s'.down == s.down && s'.closed == s.closed && |s'.conns| == |s.conns|
            && Count(s'.conns, Started) == Count(s.conns, Started)
  {
    MovesOne(max, s, m);
    Recount(s, Subject(s, m), Target(m).value);
  }

  /** A run after which the last connection's session is running, and nothing else is undone. */
  ghost predicate Starts(max: Option<nat>, s: State, run: seq<Move>) {
    Legal(max, s, run) && |s.conns| > 0 &&
    var s' := After(max, s, run);
    && s'.closed == s.closed && s'.down == s.down && |s'.conns| == |s.conns|
    && s'.conns[|s.conns| - 1] == Running && Count(s'.conns, Started) > Count(s.conns, Started)
  }

  lemma StartNow(max: Option<nat>, s: State)
    requires Last(s, Added)
    ensures Starts(max, s, [Spawn])
  {
    Recount(s, |s.conns| - 1, Running);
    Prepend(max, s, Spawn, []);
    assert [Spawn] + [] == [Spawn];
  }

  lemma StartLater(max: Option<nat>, s: State, m: Move, rest: seq<Move>)
    requires Enabled(max, s, m) && Starts(max, Apply(max, s, m), rest)
    requires var s' := Apply(max, s, m);
             && s'.closed == s.closed && s'.down == s.down && |s'.conns| == |s.conns|
             && Count(s'.conns, Started) == Count(s.conns, Started)
    ensures Starts(max, s, [m] + rest)
  {
    Prepend(max, s, m, rest);
  }

  lemma {:induction false} StartHeld(max: Option<nat>, s: State) returns (run: seq<Move>)
    requires Fine(max) && Inv(max, s) && s.loop.Deciding?
    ensures Starts(max, s, run)
    decreases Left(s)
  {
    if Last(s, Added) {
      StartNow(max, s);
      run := [Spawn];
    } else {
      var m := Closer(max, s);
      CloserStep(max, s, m);
      Keep(max, s, m);
      SessionDrains(max, s, m);
      var rest := StartHeld(max, Apply(max, s, m));
      StartLater(max, s, m, rest);
      run := [m] + rest;
    }
  }

  lemma Prepend(max: Option<nat>, s: State, m: Move, rest: seq<Move>)
    requires Enabled(max, s, m) && Legal(max, Apply(max, s, m), rest)
    ensures Legal(max, s, [m] + rest) && After(max, s, [m] + rest) == After(max, Apply(max, s, m), rest)
  {
    assert ([m] + rest)[1..] == rest;
  }

  lemma NothingStarts(max: Option<nat>, s: State, m: Move)
    requires StagesOk(s) && s.closed && !s.loop.Deciding? && Enabled(max, s, m)
    ensures var s' := Apply(max, s, m);
            s'.closed && !s'.loop.Deciding? && Count(s'.conns, Started) == Count(s.conns, Started)
  {
    MovesOne(max, s, m);
    if Target(m).Some? {
      Recount(s, Subject(s, m), Target(m).value);
    }
  }

  lemma {:induction false} NoneLeft(max: Option<nat>, s: State, run: seq<Move>)
    requires Inv(max, s) && s.closed && !s.loop.Deciding? && Legal(max, s, run)
    ensures Count(After(max, s, run).conns, Started) == Count(s.conns, Started)
    decreases |run|
  {
    if run != [] {
      Keep(max, s, run[0]);
      NothingStarts(max, s, run[0]);
      NoneLeft(max, Apply(max, s, run[0]), run[1..]);
    }
  }

  lemma {:induction false} Concat(max: Option<nat>, s: State, run: seq<Move>, more: seq<Move>)
    requires Legal(max, s, run) && Legal(max, After(max, s, run), more)
    ensures Legal(max, s, run + more) && After(max, s, run + more) == After(max, After(max, s, run), more)
    decreases |run|
  {
    if run == [] {
      assert run + more == more;
    } else {
      Concat(max, Apply(max, s, run[0]), run[1..], more);
      Prepend(max, s, run[0], run[1..] + more);
      assert run + more == [run[0]] + (run[1..] + more);
    }
  }

  lemma OneStep(max: Option<nat>, run: seq<Move>, m: Move) returns (longer: seq<Move>)
    requires Legal(max, FRESH_SERVER, run) && Enabled(max, After(max, FRESH_SERVER, run), m)
    ensures Legal(max, FRESH_SERVER, longer)
    ensures After(max, FRESH_SERVER, longer) == Apply(max, After(max, FRESH_SERVER, run), m)
  {
    Prepend(max, After(max, FRESH_SERVER, run), m, []);
    assert [m] + [] == [m];
    Concat(max, FRESH_SERVER, run, [m]);
    longer := run + [m];
  }

  /** With any limit there is a run in which Shutdown returns nil and a session is running
      afterwards: Accept and Add are not one step. */
  lemma SessionAfterShutdown(max: Option<nat>) returns (run: seq<Move>)
    requires Fine(max)
    ensures Legal(max, FRESH_SERVER, run)
    ensures var s := After(max, FRESH_SERVER, run);
            s.closed && s.down == Back(true) && |s.conns| == 1 && s.conns[0] == Running
  {
    run := OneStep(max, [], Store);
    run := OneStep(max, run, Accept);
    run := OneStep(max, run, CallShutdown);
    run := OneStep(max, run, CloseListener);
    run := OneStep(max, run, WaitOver);
    run := OneStep(max, run, ReturnNil);
    InvStart(max);
    RunKeeps(max, FRESH_SERVER, run);
    var rest := StartHeld(max, After(max, FRESH_SERVER, run));
    Concat(max, FRESH_SERVER, run, rest);
    run := run + rest;
  }

  /** With any limit there is a run in which Shutdown returns nil and Serve accepts connections
      afterwards: Shutdown was called before Serve had stored its listener. */
  lemma ServingAfterShutdown(max: Option<nat>) returns (run: seq<Move>)
    ensures Legal(max, FRESH_SERVER, run)
    ensures var s := After(max, FRESH_SERVER, run);
            !s.closed && s.down == Back(true) && Enabled(max, s, Accept)
  {
    run := OneStep(max, [], CallShutdown);
    run := OneStep(max, run, CloseListener);
    run := OneStep(max, run, WaitOver);
    run := OneStep(max, run, ReturnNil);
    run := OneStep(max, run, Store);
  }

  /** Shutdown closes the listener exactly when Serve had stored it before the call; if it had
      not, the listener stays open whatever follows. */
  lemma ShutdownBeforeServe(max: Option<nat>, run: seq<Move>, after: seq<Move>)
    requires Legal(max, FRESH_SERVER, run)
    requires var s := After(max, FRESH_SERVER, run); s.down.NotCalled? && Legal(max, s, [CallShutdown] + after)
    ensures var s := After(max, FRESH_SERVER, run);
            var s' := After(max, s, [CallShutdown] + after);
            s'.down.Waiting? || s'.down.Back? ==> (s'.closed <==> s.stored)
  {
    InvStart(max);
    RunKeeps(max, FRESH_SERVER, run);
    var s := After(max, FRESH_SERVER, run);
    Keep(max, s, CallShutdown);
    assert ([CallShutdown] + after)[1..] == after;
    SeenDecides(max, Apply(max, s, CallShutdown), after, s.stored);
  }

  /** Shutdown was called and saw a stored listener or none. */
  predicate Seen(s: State, seen: bool) {
    !s.down.NotCalled? && if s.down.Flagged? then s.down.seen == seen && !s.closed else s.closed == seen
  }

  lemma SeenStep(max: Option<nat>, s: State, m: Move, seen: bool)
    requires Enabled(max, s, m) && Seen(s, seen)
    ensures Seen(Apply(max, s, m), seen)
  {
  }

  lemma {:induction false} SeenDecides(max: Option<nat>, s: State, run: seq<Move>, seen: bool)
    requires Legal(max, s, run) && Seen(s, seen)
    ensures Seen(After(max, s, run), seen)
    decreases |run|
  {
    if run != [] {
      SeenStep(max, s, run[0], seen);
      SeenDecides(max, Apply(max, s, run[0]), run[1..], seen);
    }
  }

  // ---- draining ----

  function StageRank(st: Stage): nat {
    match st
    case Offered => 6 case Permitted => 5 case Added => 4 case Running => 3
    case Handled => 2 case Released => 1 case _ => 0
  }

  function Work(conns: seq<Stage>): nat {
    if conns == [] then 0 else StageRank(conns[0]) + Work(conns[1..])
  }

  /** Steps left once the listener is closed. */
  function Left(s: State): nat {
    Work(s.conns) + LoopRank(s.loop) + DownRank(s.down) + if s.waited then 0 else 1
  }

  function LoopRank(loop: Loop): nat {
    match loop case Starting => 3 case Deciding => 2 case Accepting => 2 case Failed => 1 case Stopped(_) => 0
  }

  function DownRank(down: Shutdown): nat {
    match down case NotCalled => 3 case Flagged(_) => 2 case Waiting => 1 case Back(_) => 0
  }

  lemma {:induction false} WorkSet(conns: seq<Stage>, k: nat, st: Stage)
    requires k < |conns|
    ensures Work(conns[k := st]) == Work(conns) - StageRank(conns[k]) + StageRank(st)
  {
    if k > 0 {
      WorkSet(conns[1..], k - 1, st);
      assert conns[k := st][1..] == conns[1..][k - 1 := st];
    }
  }

  /** A connection that moves on makes up for the loop going back to accept. */
  lemma SessionDrains(max: Option<nat>, s: State, m: Move)
    requires Enabled(max, s, m) && Target(m).Some?
    ensures Left(Apply(max, s, m)) < Left(s) && Apply(max, s, m).closed == s.closed
  {
    MovesOne(max, s, m);
    WorkSet(s.conns, Subject(s, m), Target(m).value);
  }

  lemma Drains(max: Option<nat>, s: State, m: Move)
    requires s.closed && DownOk(s) && Enabled(max, s, m)
    ensures Left(Apply(max, s, m)) < Left(s) && Apply(max, s, m).closed
  {
    if Target(m).Some? {
      SessionDrains(max, s, m);
    }
  }

  /** After the listener is closed every run is bounded by the work in hand, ... */
  lemma {:induction false} DrainEnds(max: Option<nat>, s: State, run: seq<Move>)
    requires Inv(max, s) && s.closed && Legal(max, s, run)
    ensures |run| <= Left(s)
    decreases |run|
  {
    if run != [] {
      Keep(max, s, run[0]);
      Drains(max, s, run[0]);
      DrainEnds(max, Apply(max, s, run[0]), run[1..]);
    }
  }

  /** ... and it only stops with everything accounted for: no permit taken, nobody in the
      group, every connection rejected or finished, Serve back without an error and Shutdown
      back too. */
  lemma DrainedClean(max: Option<nat>, s: State)
    requires Inv(max, s) && s.closed && forall m :: !Enabled(max, s, m)
    ensures s.loop.Stopped? && s.down.Back?
    ensures s.group == 0 && (max.Some? ==> s.sem == 0)
    ensures forall k :: 0 <= k < |s.conns| ==> Over(s.conns[k])
  {
    LoopIsBack(max, s);
    forall k | 0 <= k < |s.conns| ensures Over(s.conns[k]) {
      SessionIsOver(max, s, k);
    }
    CountNone(s.conns, HoldsPermit);
    CountNone(s.conns, InGroup);
  }

  lemma LoopIsBack(max: Option<nat>, s: State)
    requires Inv(max, s) && s.closed && forall m :: !Enabled(max, s, m)
    ensures s.loop.Stopped? && s.down.Back?
  {
    assert !Enabled(max, s, Expire) && !Enabled(max, s, AcceptFails) && !Enabled(max, s, CheckFlag);
    assert !Enabled(max, s, Acquire) && !Enabled(max, s, Reject) && !Enabled(max, s, Add) && !Enabled(max, s, Spawn);
  }

  lemma SessionIsOver(max: Option<nat>, s: State, k: nat)
    requires Inv(max, s) && !s.loop.Deciding? && k < |s.conns|
    requires forall m :: !Enabled(max, s, m)
    ensures Over(s.conns[k])
  {
    assert !Enabled(max, s, Return(k)) && !Enabled(max, s, Release(k)) && !Enabled(max, s, Leave(k));
    if s.conns[k].Handled? {
      CountZero(s.conns, HoldsPermit, k);
    }
  }

  /** In every run: when an Accept has failed, Serve returns without an error exactly if Shutdown
      was called, and it never does otherwise; with the listener closed that is always so. */
  lemma ServeReturns(max: Option<nat>, run: seq<Move>)
    requires Legal(max, FRESH_SERVER, run)
    ensures var s := After(max, FRESH_SERVER, run);
            && (s.loop.Failed? ==> Enabled(max, s, CheckFlag)
                                   && Apply(max, s, CheckFlag).loop == Stopped(!s.down.NotCalled?))
            && (s.loop == Stopped(true) ==> !s.down.NotCalled?)
            && (s.loop.Failed? && s.closed ==> Apply(max, s, CheckFlag).loop == Stopped(true))
  {
    InvStart(max);
    RunKeeps(max, FRESH_SERVER, run);
  }

  /** In every run: once Shutdown has closed the listener, a Serve that has not returned yet
      does not return an error whatever happens. */
  lemma CleanStop(max: Option<nat>, run: seq<Move>, more: seq<Move>)
    requires Legal(max, FRESH_SERVER, run) && Legal(max, After(max, FRESH_SERVER, run), more)
    requires After(max, FRESH_SERVER, run).closed && !After(max, FRESH_SERVER, run).loop.Stopped?
    ensures After(max, After(max, FRESH_SERVER, run), more).loop != Stopped(false)
  {
    InvStart(max);
    RunKeeps(max, FRESH_SERVER, run);
    NoErrorLater(max, After(max, FRESH_SERVER, run), more);
  }

  lemma NoErrorStep(max: Option<nat>, s: State, m: Move)
    requires DownOk(s) && s.closed && s.loop != Stopped(false) && Enabled(max, s, m)
    ensures Apply(max, s, m).closed && Apply(max, s, m).loop != Stopped(false)
  {
  }

  lemma {:induction false} NoErrorLater(max: Option<nat>, s: State, more: seq<Move>)
    requires Inv(max, s) && s.closed && s.loop != Stopped(false) && Legal(max, s, more)
    ensures After(max, s, more).loop != Stopped(false)
    decreases |more|
  {
    if more != [] {
      Keep(max, s, more[0]);
      NoErrorStep(max, s, more[0]);
      NoErrorLater(max, Apply(max, s, more[0]), more[1..]);
    }
  }

  /** With any limit there is a run in which Serve reports an error: an Accept failed and nobody
      had called Shutdown. */
  lemma AcceptErrorReported(max: Option<nat>) returns (run: seq<Move>)
    ensures Legal(max, FRESH_SERVER, run) && After(max, FRESH_SERVER, run).loop == Stopped(false)
  {
    run := OneStep(max, [], Store);
    run := OneStep(max, run, AcceptFails);
    run := OneStep(max, run, CheckFlag);
  }
}
