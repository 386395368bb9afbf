/**
 What holds of the registry in every reachable state, whatever steps led to it.
 */
module RegistryInvariant {
  import opened Options
  import opened Registry

  // ---- The invariant ----

  ghost predicate Distinct(q: seq<RunRef>) {
    forall i, j :: 0 <= i < j < |q| ==> q[i] != q[j]
  }

  /** A run that its session holds as active or queued. */
  ghost predicate Belongs(g: State, r: RunRef, s: SessionRef) {
    r in g.all && g.all[r].session == Some(s)
  }

  /** A session that holds anything is its chat's, and holds its runs in the right phases. */
  ghost predicate SessionOk(g: State, s: SessionRef)
    requires s in g.sessions
  {
    var x := g.sessions[s];
    && |x.queue| <= MAX_QUEUED_TURNS
    && Distinct(x.queue)
    && (x.queue != [] ==> x.active.Some? && !x.deleted)
    && (x.active.Some? ==>
          && x.chat in g.threads && g.threads[x.chat] == s
          && Belongs(g, x.active.value, s) && IsActive(g.all[x.active.value].phase))
    && (forall i :: 0 <= i < |x.queue| ==> Belongs(g, x.queue[i], s) && g.all[x.queue[i]].phase.Queued?)
    && (x.tombstone ==> x.deleted && x.active.None? && x.queue == [])
  }

  /** Each channel is closed and each event framed as often as the phase says, never twice. */
  ghost predicate CountsOk(x: Run) {
    && x.accepted + (if x.owes then 1 else 0) == (if x.phase.Registered? || x.phase.Refusing? then 0 else 1)
    && x.finished == (if x.phase.Ended? then 1 else 0)
    && x.terminals == (if x.phase.Ended? || x.phase.Closing? then 1 else 0)
    && x.started <= 1
    && (IsWorking(x.phase) ==> x.started == 1)
    && (x.started == 1 ==> IsWorking(x.phase) || x.phase.Ended?)
    && (x.phase.Registered? || x.phase.Refusing? || x.phase.Refused? || x.phase.Queued? ==> !x.owes)
  }

  /** A live run is where its session says, registered under its id and its request. */
  ghost predicate RunOk(g: State, r: RunRef)
    requires r in g.all
  {
    var x := g.all[r];
    && CountsOk(x)
    && (r in g.runs <==> IsLive(x.phase))
    && (IsRequested(x.phase) ==> x.nonce in g.requests && g.requests[x.nonce] == r)
    && (x.phase.Registered? ==> x.session.None?)
    && (IsActive(x.phase) ==> HasSession(g, r) && g.sessions[x.session.value].active == Some(r))
    && (x.phase.Queued? ==> HasSession(g, r) && r in g.sessions[x.session.value].queue)
  }

  /** Every registered session is its chat's, and busy or the tombstone of a transfer. */
  ghost predicate ThreadOk(g: State, c: Chat)
    requires c in g.threads
  {
    var s := g.threads[c];
    s in g.sessions && g.sessions[s].chat == c && (g.sessions[s].active.Some? || g.sessions[s].tombstone)
  }

  ghost predicate RequestOk(g: State, n: Nonce)
    requires n in g.requests
  {
    var r := g.requests[n];
    r in g.all && g.all[r].nonce == n && IsRequested(g.all[r].phase)
  }

  ghost predicate Sessions(g: State) { forall s :: s in g.sessions ==> SessionOk(g, s) }
  ghost predicate Runs(g: State) { forall r :: r in g.all ==> RunOk(g, r) }
  ghost predicate Threads(g: State) { forall c :: c in g.threads ==> ThreadOk(g, c) }
  ghost predicate Requests(g: State) { forall n :: n in g.requests ==> RequestOk(g, n) }
  ghost predicate Quiet(g: State) { g.closing ==> forall s :: s in g.sessions ==> g.sessions[s].queue == [] }

  ghost function Workers(g: State): set<RunRef> {
    set r | r in g.all && IsWorking(g.all[r].phase)
  }

  /** What holds but for the count of working runs and a shutdown under way. */
  ghost predicate Core(g: State) {
    Sessions(g) && Runs(g) && Threads(g) && Requests(g) && g.runs <= g.all.Keys
  }

  /** Core, and working is how many runs are at work. */
  ghost predicate Sound(g: State) {
    Core(g) && g.working == |Workers(g)|
  }

  ghost predicate Inv(g: State) {
    Sound(g) && Quiet(g)
  }

  // ---- Steps that touch one session ----

  /** g' differs from g in one session, in runs that were no other's, and in the entry of the session's chat. */
  ghost predicate Local(g: State, g': State, s: SessionRef, touched: set<RunRef>) {
    && s in g'.sessions
    && (forall s2 :: s2 != s ==> (s2 in g.sessions <==> s2 in g'.sessions))
    && (forall s2 :: s2 != s && s2 in g.sessions ==> g'.sessions[s2] == g.sessions[s2])
    && (s in g.sessions ==> g'.sessions[s].chat == g.sessions[s].chat)
    && (forall r :: r !in touched ==> (r in g.all <==> r in g'.all) && (r in g.runs <==> r in g'.runs))
    && (forall r :: r !in touched && r in g.all ==> g'.all[r] == g.all[r])
    && (forall r :: r in touched && r in g.all ==> g.all[r].session.None? || g.all[r].session == Some(s))
    && (forall n :: n in g.requests && g.requests[n] !in touched ==> n in g'.requests && g'.requests[n] == g.requests[n])
    && var c := g'.sessions[s].chat;
       && (forall c2 :: c2 != c ==> (c2 in g.threads <==> c2 in g'.threads))
       && (forall c2 :: c2 != c && c2 in g.threads ==> g'.threads[c2] == g.threads[c2])
       && (c in g.threads && g.threads[c] != s ==> c in g'.threads && g'.threads[c] == g.threads[c])
       && (c in g'.threads && g'.threads[c] != s ==> c in g.threads && g'.threads[c] == g.threads[c])
  }

  lemma LocalSessions(g: State, g': State, s: SessionRef, touched: set<RunRef>)
    requires Core(g) && Local(g, g', s, touched) && SessionOk(g', s)
    ensures Sessions(g')
  {
    hide Runs, Threads, Requests;
    forall s2 | s2 in g'.sessions ensures SessionOk(g', s2) {
      if s2 != s {
        assert SessionOk(g, s2);
      }
    }
  }

  lemma LocalRuns(g: State, g': State, s: SessionRef, touched: set<RunRef>)
    requires Core(g) && Local(g, g', s, touched) && SessionOk(g', s)
    requires forall r :: r in touched && r in g'.all ==> RunOk(g', r)
    requires s in g.sessions ==> forall r :: r !in touched ==> InPlace(g'.sessions[s], r) == InPlace(g.sessions[s], r)
    ensures Runs(g')
  {
    hide Sessions, Threads, Requests, CountsOk;
    forall r | r in g'.all ensures RunOk(g', r) {
      if r !in touched {
        assert RunOk(g, r);
      }
    }
  }

  /** Where a session holds a run. */
  function InPlace(x: Session, r: RunRef): (bool, bool) {
    (x.active == Some(r), r in x.queue)
  }

  lemma LocalThreads(g: State, g': State, s: SessionRef, touched: set<RunRef>)
    requires Core(g) && Local(g, g', s, touched)
    requires var x := g'.sessions[s]; x.chat in g'.threads && g'.threads[x.chat] == s ==> x.active.Some? || x.tombstone
    ensures Threads(g')
  {
    hide Sessions, Runs, Requests;
    forall c | c in g'.threads ensures ThreadOk(g', c) {
      if c in g.threads && g.threads[c] == g'.threads[c] {
        assert ThreadOk(g, c);
      }
    }
  }

  lemma LocalRequests(g: State, g': State, s: SessionRef, touched: set<RunRef>)
    requires Core(g) && Local(g, g', s, touched)
    requires forall n :: n in g'.requests && g'.requests[n] !in touched ==> n in g.requests && g.requests[n] == g'.requests[n]
    requires forall n :: n in g'.requests && g'.requests[n] in touched ==> RequestOk(g', n)
    ensures Requests(g')
  {
    hide Sessions, Runs, Threads;
    forall n | n in g'.requests ensures RequestOk(g', n) {
      if g'.requests[n] !in touched {
        assert RequestOk(g, n);
      }
    }
  }

  /** A step within one session keeps the registry sound if it leaves the session and its runs so. */
  lemma LocalCore(g: State, g': State, s: SessionRef, touched: set<RunRef>)
    requires Core(g) && Local(g, g', s, touched) && SessionOk(g', s)
    requires forall r :: r in touched && r in g'.all ==> RunOk(g', r)
    requires s in g.sessions ==> forall r :: r !in touched ==> InPlace(g'.sessions[s], r) == InPlace(g.sessions[s], r)
    requires var x := g'.sessions[s]; x.chat in g'.threads && g'.threads[x.chat] == s ==> x.active.Some? || x.tombstone
    requires forall n :: n in g'.requests && g'.requests[n] !in touched ==> n in g.requests && g.requests[n] == g'.requests[n]
    requires forall n :: n in g'.requests && g'.requests[n] in touched ==> RequestOk(g', n)
    requires g'.runs <= g'.all.Keys
    ensures Core(g')
  {
    hide Local, SessionOk, RunOk, RequestOk, InPlace, Sessions, Runs, Threads, Requests;
    LocalSessions(g, g', s, touched);
    LocalRuns(g, g', s, touched);
    LocalThreads(g, g', s, touched);
    LocalRequests(g, g', s, touched);
  }

  // ---- Steps that touch one run and no session ----

  /** g' differs from g in one run, which stays where its session holds it. */
  ghost predicate OneRun(g: State, g': State, r: RunRef) {
    && g'.sessions == g.sessions && g'.threads == g.threads
    && r in g'.all && g'.all == g.all[r := g'.all[r]]
    && (forall r2 :: r2 != r ==> (r2 in g.runs <==> r2 in g'.runs))
    && (forall n :: n in g.requests && g.requests[n] != r ==> n in g'.requests && g'.requests[n] == g.requests[n])
    && (forall n :: n in g'.requests && g'.requests[n] != r ==> n in g.requests && g.requests[n] == g'.requests[n])
    && (if r in g.all then
          && g'.all[r].session == g.all[r].session
          && IsActive(g'.all[r].phase) == IsActive(g.all[r].phase)
          && g'.all[r].phase.Queued? == g.all[r].phase.Queued?
        else !IsLive(g'.all[r].phase))
  }

  lemma OneRunCore(g: State, g': State, r: RunRef)
    requires Core(g) && OneRun(g, g', r) && RunOk(g', r) && g'.runs <= g'.all.Keys
    requires forall n :: n in g'.requests && g'.requests[n] == r ==> RequestOk(g', n)
    ensures Core(g')
  {
    hide OneRun, RunOk, RequestOk, Sessions, Runs, Threads, Requests;
    OneRunSessions(g, g', r);
    OneRunOthers(g, g', r);
  }

  lemma OneRunSessions(g: State, g': State, r: RunRef)
    requires Core(g) && OneRun(g, g', r)
    ensures Sessions(g') && Threads(g')
  {
    hide Runs, Requests;
    forall s | s in g'.sessions ensures SessionOk(g', s) { assert SessionOk(g, s); }
    forall c | c in g'.threads ensures ThreadOk(g', c) { assert ThreadOk(g, c); }
  }

  lemma OneRunOthers(g: State, g': State, r: RunRef)
    requires Core(g) && OneRun(g, g', r) && RunOk(g', r)
    requires forall n :: n in g'.requests && g'.requests[n] == r ==> RequestOk(g', n)
    ensures Runs(g') && Requests(g')
  {
    hide Sessions, Threads, CountsOk;
    forall r2 | r2 in g'.all ensures RunOk(g', r2) {
      if r2 != r { assert RunOk(g, r2); }
    }
    forall n | n in g'.requests ensures RequestOk(g', n) {
      if g'.requests[n] != r { assert RequestOk(g, n); }
    }
  }

  lemma OneRunWorkers(g: State, g': State, r: RunRef)
    requires OneRun(g, g', r)
    ensures var before, after := r in g.all && IsWorking(g.all[r].phase), IsWorking(g'.all[r].phase);
            |Workers(g')| == |Workers(g)| + (if after then 1 else 0) - (if before then 1 else 0)
  {
    assert Workers(g') - {r} == Workers(g) - {r};
    CardBut(Workers(g), r);
    CardBut(Workers(g'), r);
  }

  lemma CardBut(a: set<RunRef>, r: RunRef)
    ensures |a| == |a - {r}| + (if r in a then 1 else 0)
  {
    if r in a { assert a == (a - {r}) + {r}; } else { assert a == a - {r}; }
  }

  lemma RegisterInv(g: State, r: RunRef, nonce: Nonce)
    requires Inv(g) && Enabled(g, Register(r, nonce))
    ensures Inv(Next(g, Register(r, nonce)))
  {
    hide Sessions, Threads, Runs, Forget, Admitted, Advance, Cancelled, Sent, RemoveQueued, StopEach, ShutEach, DropIdle, MayJoin, MayTransfer;
    var g' := Next(g, Register(r, nonce));
    assert forall n :: n in g.requests ==> RequestOk(g, n);
    OneRunCore(g, g', r);
    OneRunWorkers(g, g', r);
  }

  /** A step of one run that keeps its place and its registration. */
  lemma PhaseSound(g: State, g': State, r: RunRef)
    requires Sound(g) && r in g.all && OneRun(g, g', r) && CountsOk(g'.all[r])
    requires g'.all[r].nonce == g.all[r].nonce && IsRequested(g'.all[r].phase) == IsRequested(g.all[r].phase)
    requires g'.all[r].phase.Registered? ==> g.all[r].phase.Registered?
    requires g'.requests == g.requests && g'.runs == g.runs
    requires g'.working == g.working + (if IsWorking(g'.all[r].phase) then 1 else 0) - (if IsWorking(g.all[r].phase) then 1 else 0)
    ensures Sound(g')
  {
    assert RunOk(g, r);
    assert forall n :: n in g.requests ==> RequestOk(g, n);
    OneRunCore(g, g', r);
    OneRunWorkers(g, g', r);
  }

  lemma RefuseForgetInv(g: State, r: RunRef)
    requires Inv(g) && Enabled(g, RefuseForget(r))
    ensures Inv(Next(g, RefuseForget(r)))
  {
    hide Sessions, Threads, Requests, Admitted, Advance, Cancelled, Sent, RemoveQueued, StopEach, ShutEach, DropIdle, MayJoin, MayTransfer;
    var g' := Next(g, RefuseForget(r));
    assert RunOk(g, r);
    OneRunCore(g, g', r);
    OneRunWorkers(g, g', r);
  }

  lemma RunStepInv(g: State, step: Step)
    requires Inv(g) && Enabled(g, step) && IsRunStep(step)
    ensures Inv(Next(g, step))
  {
    hide Core, Quiet, Workers, OneRun, CountsOk, Forget, Admitted, Advance, Cancelled, Sent, RemoveQueued, StopEach, ShutEach, DropIdle, MayJoin, MayTransfer;
    var g' := Next(g, step);
    RunStepCounts(g, step);
    RunStepOneRun(g, step);
    PhaseSound(g, g', step.r);
    RunStepQuiet(g, step);
  }

  lemma RunStepQuiet(g: State, step: Step)
    requires Quiet(g) && Enabled(g, step) && IsRunStep(step)
    ensures Quiet(Next(g, step))
  {
    hide Forget, Admitted, Advance, Cancelled, Sent, RemoveQueued, StopEach, ShutEach, DropIdle, MayJoin, MayTransfer;
  }

  lemma RunStepOneRun(g: State, step: Step)
    requires Inv(g) && Enabled(g, step) && IsRunStep(step)
    ensures step.r in g.all && OneRun(g, Next(g, step), step.r)
  {
    hide Core, Quiet, Workers, Forget, Admitted, Advance, Cancelled, Sent, RemoveQueued, StopEach, ShutEach, DropIdle, MayJoin, MayTransfer;
    assert Next(g, step).all == g.all[step.r := Next(g, step).all[step.r]];
  }

  lemma RunStepCounts(g: State, step: Step)
    requires Inv(g) && Enabled(g, step) && IsRunStep(step)
    ensures step.r in g.all && CountsOk(Stepped(g.all[step.r], step))
  {
    hide Sessions, Threads, Requests, Quiet, Workers;
    assert RunOk(g, step.r);
    SteppedCounts(g.all[step.r], step);
  }

  lemma SteppedCounts(x: Run, step: Step)
    requires IsRunStep(step) && CountsOk(x)
    requires match step
             case RefuseClose(_) => x.phase.Refusing?
             case Start(_) => x.phase.Launching?
             case EndUnstarted(_) => x.phase.Unstarted?
             case CloseAccepted(_) => x.owes
             case BeginEnding(_) => x.phase.Running?
             case FrameTerminal(_) => x.phase.Finishing?
             case CloseFinished(_) => x.phase.Closing?
    ensures CountsOk(Stepped(x, step))
  {}

  // ---- Steps that touch a session and its runs ----

  /** What is known of a session and the runs it holds. */
  lemma SessionFacts(g: State, s: SessionRef)
    requires Core(g) && s in g.sessions
    ensures SessionOk(g, s)
    ensures forall i :: 0 <= i < |g.sessions[s].queue| ==> RunOk(g, g.sessions[s].queue[i])
    ensures g.sessions[s].active.Some? ==> RunOk(g, g.sessions[s].active.value)
  {
    hide Threads, Requests, CountsOk;
    assert SessionOk(g, s);
  }

  /** Which requests a forgotten set of runs leaves registered. */
  lemma ForgetRequests(g: State, g': State, rs: set<RunRef>)
    requires g'.requests == Forget(g, rs).requests
    ensures forall n :: n in g'.requests ==> n in g.requests && g.requests[n] == g'.requests[n] && g'.requests[n] !in rs
    ensures forall n :: n in g.requests && g.requests[n] !in rs ==> n in g'.requests && g'.requests[n] == g.requests[n]
  {}

  function IdleThreads(g: State, s: SessionRef, x: Session): map<Chat, SessionRef> {
    if x.active.None? && x.queue == [] && x.chat in g.threads && g.threads[x.chat] == s then g.threads - {x.chat} else g.threads
  }

  /** A session changed to x and the runs of gone unregistered, the chat dropped if nothing is left in it. */
  ghost predicate Shape(g: State, g': State, s: SessionRef, x: Session, gone: set<RunRef>) {
    && g'.sessions == g.sessions[s := x]
    && g'.threads == IdleThreads(g, s, x)
    && g'.all.Keys == g.all.Keys
    && (forall r :: r in g.all && r !in gone ==> g'.all[r] == g.all[r])
    && g'.runs == g.runs - gone
    && g'.requests == Forget(g, gone).requests
  }

  /** The session a step leaves: what is gone left it, and nothing else moved. */
  ghost predicate Leaves(was: Session, x: Session, gone: set<RunRef>) {
    && x.chat == was.chat && x.tombstone == was.tombstone && (was.deleted ==> x.deleted)
    && (x.active == was.active || (x.active.None? && was.active.Some? && was.active.value in gone))
    && (x.active.Some? ==> x.active.value !in gone)
    && (forall r :: r in x.queue <==> r in was.queue && r !in gone)
    && Distinct(x.queue) && |x.queue| <= |was.queue|
    && (x.queue != [] ==> x.active.Some? && !x.deleted)
  }

  lemma LeaveLocal(g: State, g': State, s: SessionRef, x: Session, gone: set<RunRef>)
    requires s in g.sessions && Shape(g, g', s, x, gone) && Leaves(g.sessions[s], x, gone)
    requires forall r :: r in gone ==> r in g.all && g.all[r].session == Some(s)
    ensures Local(g, g', s, gone)
    ensures forall r :: r !in gone ==> InPlace(x, r) == InPlace(g.sessions[s], r)
  {
    ForgetRequests(g, g', gone);
  }

  lemma LeaveSession(g: State, g': State, s: SessionRef, x: Session, gone: set<RunRef>)
    requires Core(g) && s in g.sessions && Shape(g, g', s, x, gone) && Leaves(g.sessions[s], x, gone)
    ensures SessionOk(g', s)
  {
    hide Runs, Requests, Threads;
    assert SessionOk(g, s);
    forall i | 0 <= i < |x.queue| ensures Belongs(g', x.queue[i], s) && g'.all[x.queue[i]].phase.Queued? {
      assert x.queue[i] in g.sessions[s].queue;
    }
  }

  /** Runs that leave a session for good leave the registry sound. */
  lemma LeaveCore(g: State, g': State, s: SessionRef, x: Session, gone: set<RunRef>)
    requires Core(g) && s in g.sessions && Shape(g, g', s, x, gone) && Leaves(g.sessions[s], x, gone)
    requires forall r :: r in gone ==> r in g.all && g.all[r].session == Some(s)
    requires forall r :: r in gone ==> CountsOk(g'.all[r]) && !IsRequested(g'.all[r].phase)
    ensures Core(g')
  {
    hide Core, Local, InPlace, CountsOk, SessionOk, Leaves;
    LeaveLocal(g, g', s, x, gone);
    LeaveSession(g, g', s, x, gone);
    ForgetRequests(g, g', gone);
    LeaveRest(g, g', s, x, gone);
    LocalCore(g, g', s, gone);
  }

  lemma LeaveRest(g: State, g': State, s: SessionRef, x: Session, gone: set<RunRef>)
    requires Core(g) && s in g.sessions && Shape(g, g', s, x, gone) && Leaves(g.sessions[s], x, gone)
    requires forall r :: r in gone ==> r in g.all && CountsOk(g'.all[r]) && !IsRequested(g'.all[r].phase)
    ensures forall r :: r in gone && r in g'.all ==> RunOk(g', r)
    ensures x.chat in g'.threads && g'.threads[x.chat] == s ==> x.active.Some? || x.tombstone
    ensures g'.runs <= g'.all.Keys
  {
    hide Runs, Requests, CountsOk, SessionOk;
    if x.chat in g.threads && g.threads[x.chat] == s {
      assert ThreadOk(g, x.chat);
    }
  }

  // ---- The steps, one by one ----

  lemma MembersOf(q: seq<RunRef>)
    ensures forall r :: r in Members(q) <==> r in q
  {}

  /** Ending a chat's queue leaves every other run and request as it was. */
  lemma EndRunsShape(g: State, rs: set<RunRef>)
    ensures var g' := EndRuns(g, rs);
            && g'.closing == g.closing && g'.working == g.working
            && g'.all.Keys == g.all.Keys && g'.runs == g.runs - rs && g'.sessions == g.sessions && g'.threads == g.threads
            && g'.requests == Forget(g, rs).requests
            && (forall r :: r in g.all && r !in rs ==> g'.all[r] == g.all[r])
            && (forall r :: r in g.all && r in rs ==> g'.all[r] == EndedRun(g.all[r]))
  {}

  lemma ForgetTwice(g: State, a: set<RunRef>, b: set<RunRef>)
    ensures Forget(Forget(g, a), b).requests == Forget(g, a + b).requests
    ensures Forget(Forget(g, a), b).runs == g.runs - (a + b)
  {}

  lemma ForgetSame(g: State, g2: State, rs: set<RunRef>)
    requires g.requests == g2.requests && g.runs == g2.runs
    ensures Forget(g, rs).requests == Forget(g2, rs).requests && Forget(g, rs).runs == Forget(g2, rs).runs == g.runs - rs
  {}

  lemma DropIdleShape(g: State, s: SessionRef)
    requires s in g.sessions
    ensures var g' := DropIdle(g, s);
            g' == g.(threads := IdleThreads(g, s, g.sessions[s]))
  {}

  lemma AdvanceClears(g: State, r: RunRef, goOn: bool, after: Phase)
    requires Core(g) && HasSession(g, r) && IsActive(g.all[r].phase) && (after.Unstarted? || after.Finishing?)
    requires CountsOk(g.all[r].(phase := after))
    requires !GoesOn(g, g.sessions[SessionOf(g, r)], goOn)
    ensures Core(Advance(g, r, goOn, after))
  {
    hide Core, CountsOk, IsRequested;
    var s, g' := SessionOf(g, r), Advance(g, r, goOn, after);
    var q := g.sessions[s].queue;
    var x := g.sessions[s].(active := None, queue := []);
    var gone := {r} + Members(q);
    AdvanceFacts(g, r);
    AdvanceClearsShape(g, r, goOn, after);
    MembersOf(q);
    forall t | t in gone ensures t in g.all && g.all[t].session == Some(s) && CountsOk(g'.all[t]) && !IsRequested(g'.all[t].phase) {
      if t != r { QueuedFacts(g, s, t); }
    }
    LeaveCore(g, g', s, x, gone);
  }

  lemma QueuedFacts(g: State, s: SessionRef, t: RunRef)
    requires Core(g) && s in g.sessions && t in g.sessions[s].queue
    ensures t in g.all && g.all[t].session == Some(s) && g.all[t].phase.Queued?
    ensures CountsOk(EndedRun(g.all[t])) && !IsRequested(EndedRun(g.all[t]).phase)
  {
    SessionFacts(g, s);
    assert RunOk(g, t);
  }

  lemma AdvanceFacts(g: State, r: RunRef)
    requires Core(g) && HasSession(g, r) && IsActive(g.all[r].phase)
    ensures var x := g.sessions[SessionOf(g, r)];
            && x.active == Some(r) && r !in x.queue && !x.tombstone
            && x.chat in g.threads && g.threads[x.chat] == SessionOf(g, r)
            && Distinct(x.queue) && |x.queue| <= MAX_QUEUED_TURNS && (x.queue != [] ==> !x.deleted)
    ensures !IsRequested(Unstarted) && !IsRequested(Finishing)
  {
    assert RunOk(g, r);
    SessionFacts(g, SessionOf(g, r));
  }

  lemma AdvanceClearsShape(g: State, r: RunRef, goOn: bool, after: Phase)
    requires HasSession(g, r) && !GoesOn(g, g.sessions[SessionOf(g, r)], goOn)
    requires var x := g.sessions[SessionOf(g, r)]; x.active == Some(r) && r !in x.queue
    ensures var s := SessionOf(g, r);
            var x := g.sessions[s].(active := None, queue := []);
            var g' := Advance(g, r, goOn, after);
            && Shape(g, g', s, x, {r} + Members(g.sessions[s].queue))
            && g'.all[r] == g.all[r].(phase := after)
            && (forall t :: t in g.sessions[s].queue && t in g.all ==> g'.all[t] == EndedRun(g.all[t]))
  {
    hide EndRuns, DropIdle, Forget;
    var s, q := SessionOf(g, r), g.sessions[SessionOf(g, r)].queue;
    MembersOf(q);
    var g1 := SetRun(Forget(g, {r}), r, g.all[r].(phase := after));
    EndRunsShape(g1, Members(q));
    ForgetTwice(g, {r}, Members(q));
    ForgetSame(Forget(g, {r}), g1, Members(q));
    var g2 := ClearQueue(g1, s, g.sessions[s].(active := None));
    DropIdleShape(g2, s);
  }

  lemma AdvancePromotes(g: State, r: RunRef, goOn: bool, after: Phase)
    requires Core(g) && HasSession(g, r) && IsActive(g.all[r].phase) && (after.Unstarted? || after.Finishing?)
    requires CountsOk(g.all[r].(phase := after))
    requires GoesOn(g, g.sessions[SessionOf(g, r)], goOn)
    ensures Core(Advance(g, r, goOn, after))
    ensures g.sessions[SessionOf(g, r)].queue[0] in g.all
    ensures Promoted(g, Advance(g, r, goOn, after), r, after)
  {
    hide Core, CountsOk, Local, SessionOk, InPlace, RequestOk;
    var s, g' := SessionOf(g, r), Advance(g, r, goOn, after);
    var next := g.sessions[s].queue[0];
    AdvanceFacts(g, r);
    QueuedFacts(g, s, next);
    PromotedShape(g, r, goOn, after);
    PromotedSession(g, g', r, after);
    PromotedRuns(g, g', r, after);
    PromotedLocal(g, g', r, after);
    LocalCore(g, g', s, {r, next});
  }

  /** The chat's slot passes from r to the turn first in the queue. */
  ghost predicate Promoted(g: State, g': State, r: RunRef, after: Phase)
    requires HasSession(g, r) && |g.sessions[SessionOf(g, r)].queue| > 0
  {
    var s := SessionOf(g, r);
    var x := g.sessions[s];
    && x.queue[0] in g.all && x.queue[0] != r
    && g'.sessions == g.sessions[s := x.(active := Some(x.queue[0]), queue := x.queue[1..])]
    && g'.threads == g.threads
    && g'.all == g.all[r := g.all[r].(phase := after)][x.queue[0] := g.all[x.queue[0]].(phase := Launching)]
    && g'.runs == g.runs - {r}
    && g'.requests == Forget(g, {r}).requests
  }

  lemma PromotedShape(g: State, r: RunRef, goOn: bool, after: Phase)
    requires HasSession(g, r) && GoesOn(g, g.sessions[SessionOf(g, r)], goOn)
    requires var x := g.sessions[SessionOf(g, r)]; x.active == Some(r) && r !in x.queue && x.queue[0] in g.all
    ensures Promoted(g, Advance(g, r, goOn, after), r, after)
  {
  }

  lemma PromotedSession(g: State, g': State, r: RunRef, after: Phase)
    requires Core(g) && HasSession(g, r) && IsActive(g.all[r].phase) && |g.sessions[SessionOf(g, r)].queue| > 0
    requires Promoted(g, g', r, after)
    ensures SessionOk(g', SessionOf(g, r))
  {
    hide Threads, Requests, CountsOk;
    var s := SessionOf(g, r);
    SessionFacts(g, s);
    assert RunOk(g, r);
    var q := g.sessions[s].queue;
    forall i | 0 <= i < |q[1..]| ensures Belongs(g', q[1..][i], s) && g'.all[q[1..][i]].phase.Queued? {
      assert q[1..][i] == q[i + 1] && q[i + 1] != q[0];
    }
  }

  lemma PromotedRuns(g: State, g': State, r: RunRef, after: Phase)
    requires Core(g) && HasSession(g, r) && IsActive(g.all[r].phase) && |g.sessions[SessionOf(g, r)].queue| > 0
    requires Promoted(g, g', r, after) && CountsOk(g.all[r].(phase := after)) && (after.Unstarted? || after.Finishing?)
    ensures RunOk(g', r) && RunOk(g', g.sessions[SessionOf(g, r)].queue[0])
    ensures forall n :: n in g'.requests && g'.requests[n] in {r, g.sessions[SessionOf(g, r)].queue[0]} ==> RequestOk(g', n)
    ensures g'.runs <= g'.all.Keys
  {
    hide Threads, Sessions, Requests, CountsOk, SessionOk;
    assert RunOk(g, r);
    ForgetRequests(g, g', {r});
    PromotedNext(g, g', r, after);
    PromotedRequests(g, g', r, after);
  }

  lemma PromotedNext(g: State, g': State, r: RunRef, after: Phase)
    requires Core(g) && HasSession(g, r) && IsActive(g.all[r].phase) && |g.sessions[SessionOf(g, r)].queue| > 0
    requires Promoted(g, g', r, after)
    ensures RunOk(g', g.sessions[SessionOf(g, r)].queue[0])
  {
    hide Threads, Sessions, Requests, Runs;
    var s := SessionOf(g, r);
    SessionFacts(g, s);
    ForgetRequests(g, g', {r});
  }

  lemma PromotedRequests(g: State, g': State, r: RunRef, after: Phase)
    requires Core(g) && HasSession(g, r) && |g.sessions[SessionOf(g, r)].queue| > 0
    requires Promoted(g, g', r, after)
    ensures forall n :: n in g'.requests && g'.requests[n] in {r, g.sessions[SessionOf(g, r)].queue[0]} ==> RequestOk(g', n)
  {
    hide Threads, Sessions, Runs;
    var next := g.sessions[SessionOf(g, r)].queue[0];
    ForgetRequests(g, g', {r});
    forall n | n in g'.requests && g'.requests[n] in {r, next} ensures RequestOk(g', n) {
      assert RequestOk(g, n);
    }
  }

  lemma PromotedLocal(g: State, g': State, r: RunRef, after: Phase)
    requires HasSession(g, r) && |g.sessions[SessionOf(g, r)].queue| > 0 && Promoted(g, g', r, after)
    requires var x := g.sessions[SessionOf(g, r)];
             x.active == Some(r) && g.all[x.queue[0]].session == Some(SessionOf(g, r)) && Distinct(x.queue)
    ensures var s, next := SessionOf(g, r), g.sessions[SessionOf(g, r)].queue[0];
            && Local(g, g', s, {r, next})
            && (forall t :: t !in {r, next} ==> InPlace(g'.sessions[s], t) == InPlace(g.sessions[s], t))
            && g'.sessions[s].active.Some?
            && (forall n :: n in g'.requests && g'.requests[n] !in {r, next} ==> n in g.requests && g.requests[n] == g'.requests[n])
  {
    ForgetRequests(g, g', {r});
    var q := g.sessions[SessionOf(g, r)].queue;
    assert q == [q[0]] + q[1..];
  }
}
