/**
 Every step of the registry keeps its invariant.
 */
module RegistrySteps {
  import opened Options
  import opened Registry
  import opened RegistryInvariant

  // ---- What a step leaves of the count of working runs and of a shutdown ----

  /** No run begins or stops working, and no queue fills. */
  ghost predicate Calm(g: State, g': State) {
    && g'.closing == g.closing && g'.working == g.working
    && g'.all.Keys == g.all.Keys
    && (forall r :: r in g.all ==> IsWorking(g'.all[r].phase) == IsWorking(g.all[r].phase))
    && (g.closing ==>
          forall s :: s in g'.sessions && g'.sessions[s].queue != [] ==> s in g.sessions && g.sessions[s].queue != [])
  }

  lemma CalmSound(g: State, g': State)
    requires Sound(g) && Core(g') && Calm(g, g')
    ensures Sound(g') && (Quiet(g) ==> Quiet(g'))
  {
    hide Core;
    assert Workers(g') == Workers(g);
  }

  // ---- advance ----

  lemma AdvanceInv(g: State, r: RunRef, goOn: bool, after: Phase)
    requires Inv(g) && HasSession(g, r) && IsActive(g.all[r].phase) && (after.Unstarted? || after.Finishing?)
    requires CountsOk(g.all[r].(phase := after)) && IsWorking(after) == IsWorking(g.all[r].phase)
    ensures Inv(Advance(g, r, goOn, after))
  {
    hide Core, Quiet, Workers, CountsOk, Calm, Advance;
    var g' := Advance(g, r, goOn, after);
    if GoesOn(g, g.sessions[SessionOf(g, r)], goOn) {
      AdvancePromotes(g, r, goOn, after);
    } else {
      AdvanceClears(g, r, goOn, after);
    }
    AdvanceCalm(g, r, goOn, after);
    CalmSound(g, g');
  }

  lemma AdvanceFlat(g: State, r: RunRef, goOn: bool, after: Phase)
    requires HasSession(g, r)
    ensures var g' := Advance(g, r, goOn, after); g'.closing == g.closing && g'.working == g.working
  {
    hide GoesOn;
  }

  lemma AdvanceCalm(g: State, r: RunRef, goOn: bool, after: Phase)
    requires Core(g) && HasSession(g, r) && IsActive(g.all[r].phase) && IsWorking(after) == IsWorking(g.all[r].phase)
    ensures Calm(g, Advance(g, r, goOn, after))
  {
    hide Core, Advance, IdleThreads, Forget, Calm, Shape, Promoted;
    var s, g' := SessionOf(g, r), Advance(g, r, goOn, after);
    AdvanceFacts(g, r);
    AdvanceFlat(g, r, goOn, after);
    var q := g.sessions[s].queue;
    forall t | t in q ensures t in g.all && g.all[t].phase.Queued? { QueuedFacts(g, s, t); }
    if GoesOn(g, g.sessions[s], goOn) {
      PromotedShape(g, r, goOn, after);
      PromotedCalm(g, g', r, after);
    } else {
      AdvanceClearsShape(g, r, goOn, after);
      ClearsCalm(g, g', r, after);
    }
  }

  lemma PromotedCalm(g: State, g': State, r: RunRef, after: Phase)
    requires HasSession(g, r) && |g.sessions[SessionOf(g, r)].queue| > 0 && Promoted(g, g', r, after)
    requires IsWorking(after) == IsWorking(g.all[r].phase) && g'.closing == g.closing && g'.working == g.working
    requires g.all[g.sessions[SessionOf(g, r)].queue[0]].phase.Queued?
    ensures Calm(g, g')
  {
    hide Forget;
  }

  lemma ClearsCalm(g: State, g': State, r: RunRef, after: Phase)
    requires HasSession(g, r) && g'.closing == g.closing && g'.working == g.working
    requires var s := SessionOf(g, r);
             Shape(g, g', s, g.sessions[s].(active := None, queue := []), {r} + Members(g.sessions[s].queue))
    requires IsWorking(after) == IsWorking(g.all[r].phase) && g'.all[r].phase == after
    requires forall t :: t in g.sessions[SessionOf(g, r)].queue ==>
               t in g.all && g.all[t].phase.Queued? && (t != r ==> g'.all[t] == EndedRun(g.all[t]))
    ensures Calm(g, g')
  {
    hide Forget, IdleThreads;
    MembersOf(g.sessions[SessionOf(g, r)].queue);
  }

  lemma FailToStartInv(g: State, r: RunRef)
    requires Inv(g) && Enabled(g, FailToStart(r))
    ensures Inv(Next(g, FailToStart(r)))
  {
    hide Sessions, Threads, Requests, Quiet, Workers, Advance;
    assert RunOk(g, r);
    AdvanceInv(g, r, true, Unstarted);
  }

  lemma CommitInv(g: State, r: RunRef)
    requires Inv(g) && Enabled(g, Commit(r))
    ensures Inv(Next(g, Commit(r)))
  {
    hide Sessions, Threads, Requests, Quiet, Workers, Advance;
    assert RunOk(g, r);
    AdvanceInv(g, r, !g.all[r].phase.stopped || g.all[r].yielded, Finishing);
  }

  // ---- stop, and shutting down ----

  lemma CancelActiveSound(g: State, s: SessionRef)
    requires Sound(g) && s in g.sessions
    ensures var g' := CancelActive(g, s);
            Sound(g') && g' == g.(all := g'.all) && g'.all.Keys == g.all.Keys
  {
    hide Sessions, Runs, Threads, Requests, Workers;
    SessionFacts(g, s);
    if g.sessions[s].active.Some? {
      FlagsSound(g, CancelActive(g, s), g.sessions[s].active.value);
    }
  }

  /** A run's flags are its own affair. */
  lemma FlagsSound(g: State, g': State, r: RunRef)
    requires Sound(g) && r in g.all && r in g'.all && g' == g.(all := g.all[r := g'.all[r]])
    requires g'.all[r] == g.all[r].(cancelled := g'.all[r].cancelled, yielded := g'.all[r].yielded)
    ensures Sound(g')
  {
    hide Sessions, Threads, Requests, Workers;
    assert RunOk(g, r);
    PhaseSound(g, g', r);
  }

  /** Ends every turn queued in a chat, which leaves the registry if nothing runs in it. */
  function Cleared(g: State, s: SessionRef, x: Session): State {
    DropIdle(ClearQueue(g, s, x), s)
  }

  lemma ClearedShape(g: State, s: SessionRef, x: Session)
    requires s in g.sessions && x == g.sessions[s].(deleted := x.deleted)
    ensures var g' := Cleared(g, s, x);
            && Shape(g, g', s, x.(queue := []), Members(x.queue))
            && g'.closing == g.closing && g'.working == g.working
            && (forall t :: t in x.queue && t in g.all ==> g'.all[t] == EndedRun(g.all[t]))
  {
    hide EndRuns, DropIdle, Forget;
    MembersOf(x.queue);
    EndRunsShape(g, Members(x.queue));
    DropIdleShape(ClearQueue(g, s, x), s);
  }

  lemma ClearedSound(g: State, s: SessionRef, x: Session)
    requires Sound(g) && s in g.sessions && x == g.sessions[s].(deleted := x.deleted) && (g.sessions[s].deleted ==> x.deleted)
    ensures Sound(Cleared(g, s, x)) && (Quiet(g) ==> Quiet(Cleared(g, s, x)))
  {
    hide Core, Workers, Quiet, CountsOk, Cleared, Forget, IdleThreads;
    var g' := Cleared(g, s, x);
    ClearedShape(g, s, x);
    MembersOf(x.queue);
    forall t | t in x.queue
      ensures t in g.all && g.all[t].session == Some(s) && CountsOk(g'.all[t])
      ensures !IsRequested(g'.all[t].phase) && !IsWorking(g.all[t].phase) && !IsWorking(g'.all[t].phase)
    {
      QueuedFacts(g, s, t);
    }
    ClearedLeaves(g, s, x);
    LeaveCore(g, g', s, x.(queue := []), Members(x.queue));
    CalmSound(g, g');
  }

  lemma ClearedLeaves(g: State, s: SessionRef, x: Session)
    requires Core(g) && s in g.sessions && x == g.sessions[s].(deleted := x.deleted) && (g.sessions[s].deleted ==> x.deleted)
    ensures Leaves(g.sessions[s], x.(queue := []), Members(x.queue))
  {
    SessionFacts(g, s);
    MembersOf(x.queue);
  }

  lemma StopSessionInv(g: State, s: SessionRef)
    requires Inv(g) && s in g.sessions
    ensures Inv(StopSession(g, s))
  {
    hide Sound, CancelActive, ClearQueue, DropIdle;
    CancelActiveSound(g, s);
    ClearedSound(CancelActive(g, s), s, g.sessions[s].(deleted := true));
  }

  lemma {:induction false} StopEachInv(g: State, chats: seq<Chat>, which: Session -> bool)
    requires Inv(g)
    ensures Inv(StopEach(g, chats, which))
  {
    hide Inv, StopSession;
    if chats != [] {
      var g1, c := StopEach(g, chats[..|chats| - 1], which), chats[|chats| - 1];
      StopEachInv(g, chats[..|chats| - 1], which);
      if c in g1.threads && g1.threads[c] in g1.sessions && which(g1.sessions[g1.threads[c]]) {
        StopSessionInv(g1, g1.threads[c]);
      }
    }
  }

  lemma EndNone(g: State)
    ensures EndRuns(g, {}) == g
  {
    assert Forget(g, {}).requests == g.requests;
    assert EndRuns(g, {}).all == g.all;
  }

  /** Without a drop: a chat with nothing running had nothing queued. */
  lemma ClearQueueSound(g: State, s: SessionRef)
    requires Sound(g) && s in g.sessions
    ensures Sound(ClearQueue(g, s, g.sessions[s]))
  {
    hide Sessions, Runs, Threads, Requests, Workers, EndRuns;
    var x := g.sessions[s];
    SessionFacts(g, s);
    if x.active.None? {
      assert Members(x.queue) == {};
      EndNone(g);
      assert ClearQueue(g, s, x) == g;
    } else {
      ClearedSound(g, s, x);
    }
  }

  /** Shutting down a prefix of the chats leaves their queues empty. */
  lemma {:induction false} ShutEachSound(g: State, chats: seq<Chat>)
    requires Sound(g)
    ensures var g' := ShutEach(g, chats);
            && Sound(g') && g'.closing && g'.threads == g.threads && g'.sessions.Keys == g.sessions.Keys
            && forall c :: c in chats && c in g.threads && g.threads[c] in g.sessions ==> g'.sessions[g.threads[c]].queue == []
  {
    hide Core, Workers, CancelActive, EndRuns, IsWorking;
    if chats == [] {
      ClosingCore(g);
    } else {
      var g1, c := ShutEach(g, chats[..|chats| - 1]), chats[|chats| - 1];
      ShutEachSound(g, chats[..|chats| - 1]);
      assert chats == chats[..|chats| - 1] + [c];
      if c in g1.threads && g1.threads[c] in g1.sessions {
        ShutOne(g1, g1.threads[c]);
      }
    }
  }

  lemma ShutOne(g: State, s: SessionRef)
    requires Sound(g) && s in g.sessions
    ensures var g' := ClearQueue(CancelActive(g, s), s, g.sessions[s]);
            && Sound(g') && g'.closing == g.closing && g'.threads == g.threads && g'.working == g.working
            && g'.sessions == g.sessions[s := g.sessions[s].(queue := [])]
  {
    hide Core, Workers, CancelActive, EndRuns;
    CancelActiveSound(g, s);
    ClearQueueSound(CancelActive(g, s), s);
    EndRunsShape(CancelActive(g, s), Members(g.sessions[s].queue));
  }

  lemma ClosingCore(g: State)
    requires Sound(g)
    ensures Sound(g.(closing := true))
  {
    var g' := g.(closing := true);
    assert Workers(g') == Workers(g);
    forall s | s in g'.sessions ensures SessionOk(g', s) { assert SessionOk(g, s); }
    forall r | r in g'.all ensures RunOk(g', r) { assert RunOk(g, r); }
    forall c | c in g'.threads ensures ThreadOk(g', c) { assert ThreadOk(g, c); }
    forall n | n in g'.requests ensures RequestOk(g', n) { assert RequestOk(g, n); }
  }

  lemma ShutdownInv(g: State, chats: seq<Chat>)
    requires Inv(g) && Covers(chats, g.threads)
    ensures Inv(ShutEach(g, chats))
  {
    hide Runs, Requests, Workers, ShutEach;
    var g' := ShutEach(g, chats);
    ShutEachSound(g, chats);
    forall s | s in g'.sessions ensures g'.sessions[s].queue == [] {
      assert SessionOk(g', s);
    }
  }

  // ---- Turns that leave the queue, or move in it ----

  lemma {:induction false} WithoutFacts(q: seq<RunRef>, r: RunRef)
    requires Distinct(q) && r in q
    ensures var p := Without(q, r);
            |p| == |q| - 1 && Distinct(p) && r !in p && (forall t :: t in p <==> t in q && t != r)
  {
    if q[0] != r {
      var rest := q[1..];
      assert q == [q[0]] + rest;
      assert forall i, j :: 0 <= i < j < |rest| ==> rest[i] == q[i + 1] && rest[j] == q[j + 1];
      WithoutFacts(rest, r);
      DistinctCons(q[0], Without(rest, r));
    } else {
      assert q == [q[0]] + q[1..];
    }
  }

  lemma DistinctCons(t: RunRef, q: seq<RunRef>)
    requires Distinct(q) && t !in q
    ensures Distinct([t] + q)
  {}

  lemma RemoveQueuedShape(g: State, r: RunRef)
    requires HasSession(g, r) && r in g.sessions[SessionOf(g, r)].queue
    ensures var s := SessionOf(g, r);
            var x := g.sessions[s].(queue := Without(g.sessions[s].queue, r));
            var g' := RemoveQueued(g, r);
            && Shape(g, g', s, x, {r})
            && g'.closing == g.closing && g'.working == g.working
            && g'.all[r] == EndedRun(g.all[r].(cancelled := true))
  {
    hide EndRuns, DropIdle, Forget;
    var s := SessionOf(g, r);
    var x := g.sessions[s].(queue := Without(g.sessions[s].queue, r));
    var g1 := SetSession(SetRun(g, r, g.all[r].(cancelled := true)), s, x);
    EndRunsShape(g1, {r});
    ForgetSame(g, g1, {r});
    DropIdleShape(EndRuns(g1, {r}), s);
  }

  lemma RemoveQueuedInv(g: State, r: RunRef)
    requires Inv(g) && HasSession(g, r)
    ensures Inv(RemoveQueued(g, r))
  {
    hide Core, Quiet, Workers, EndRuns, DropIdle, Shape, Leaves, Calm, CountsOk;
    var s := SessionOf(g, r);
    if r in g.sessions[s].queue {
      var g' := RemoveQueued(g, r);
      var x := g.sessions[s].(queue := Without(g.sessions[s].queue, r));
      RemoveQueuedShape(g, r);
      QueuedFacts(g, s, r);
      RemoveLeaves(g, s, r);
      RemoveCounts(g.all[r]);
      LeaveCore(g, g', s, x, {r});
      RemoveCalm(g, g', s, x, r);
      CalmSound(g, g');
    }
  }

  lemma RemoveCounts(x: Run)
    requires CountsOk(EndedRun(x))
    ensures CountsOk(EndedRun(x.(cancelled := true)))
  {}

  lemma RemoveLeaves(g: State, s: SessionRef, r: RunRef)
    requires Core(g) && s in g.sessions && r in g.sessions[s].queue
    ensures Leaves(g.sessions[s], g.sessions[s].(queue := Without(g.sessions[s].queue, r)), {r})
  {
    hide Without;
    SessionFacts(g, s);
    WithoutFacts(g.sessions[s].queue, r);
  }

  lemma RemoveCalm(g: State, g': State, s: SessionRef, x: Session, r: RunRef)
    requires s in g.sessions && r in g.sessions[s].queue && r in g.all && g.all[r].phase.Queued?
    requires Shape(g, g', s, x, {r}) && g'.closing == g.closing && g'.working == g.working
    requires !IsWorking(g'.all[r].phase)
    ensures Calm(g, g')
  {
    hide Forget, IdleThreads;
  }

  lemma CancelInv(g: State, r: RunRef)
    requires Inv(g) && HasSession(g, r)
    ensures Inv(Cancelled(g, r))
  {
    hide Sound, RemoveQueued;
    RemoveQueuedInv(g, r);
    var g' := SetRun(g, r, g.all[r].(cancelled := true));
    FlagsSound(g, g', r);
  }

  /** A session changes, or appears, and no run with it. */
  lemma SessionLocal(g: State, g': State, s: SessionRef)
    requires Core(g) && s in g'.sessions && g'.sessions == g.sessions[s := g'.sessions[s]]
    requires s in g.sessions ==> g'.sessions[s].chat == g.sessions[s].chat
    requires s in g.sessions ==> forall r :: InPlace(g'.sessions[s], r) == InPlace(g.sessions[s], r)
    requires g'.runs == g.runs && g'.requests == g.requests && g'.all == g.all
    requires var c := g'.sessions[s].chat;
             || g'.threads == g.threads
             || (g'.threads == g.threads[c := s] && c !in g.threads)
             || (g'.threads == g.threads - {c} && c in g.threads && g.threads[c] == s)
    requires SessionOk(g', s)
    requires var x := g'.sessions[s]; x.chat in g'.threads && g'.threads[x.chat] == s ==> x.active.Some? || x.tombstone
    ensures Core(g')
  {
    hide InPlace, SessionOk, Sessions, Runs, Threads, Requests;
    LocalCore(g, g', s, {});
  }

  lemma SameRunsSound(g: State, g': State)
    requires Sound(g) && Core(g') && g'.all == g.all && g'.working == g.working
    ensures Sound(g')
  {
    hide Core;
    assert Workers(g) == Workers(g');
  }

  /** Turns only change places in a queue. */
  lemma ReorderInv(g: State, s: SessionRef, q: seq<RunRef>)
    requires Inv(g) && s in g.sessions && Distinct(q) && |q| == |g.sessions[s].queue|
    requires forall t :: t in q <==> t in g.sessions[s].queue
    ensures Inv(SetSession(g, s, g.sessions[s].(queue := q)))
  {
    hide Core, Workers, SessionOk;
    var g' := SetSession(g, s, g.sessions[s].(queue := q));
    ReorderSession(g, s, q);
    ReorderThread(g, s);
    SessionLocal(g, g', s);
    SameRunsSound(g, g');
  }

  lemma ReorderSession(g: State, s: SessionRef, q: seq<RunRef>)
    requires Core(g) && s in g.sessions && Distinct(q) && |q| == |g.sessions[s].queue|
    requires forall t :: t in q <==> t in g.sessions[s].queue
    ensures SessionOk(SetSession(g, s, g.sessions[s].(queue := q)), s)
  {
    hide Runs, Threads, Requests;
    SessionFacts(g, s);
    assert forall i :: 0 <= i < |q| ==> q[i] in g.sessions[s].queue;
  }

  lemma ReorderThread(g: State, s: SessionRef)
    requires Core(g) && s in g.sessions
    ensures var x := g.sessions[s]; x.chat in g.threads && g.threads[x.chat] == s ==> x.active.Some? || x.tombstone
  {
    var x := g.sessions[s];
    if x.chat in g.threads { assert ThreadOk(g, x.chat); }
  }

  lemma SendInv(g: State, r: RunRef)
    requires Inv(g) && HasSession(g, r)
    ensures Inv(Sent(g, r))
  {
    hide Sessions, Runs, Threads, Requests, Workers, Without;
    var s := SessionOf(g, r);
    var x := g.sessions[s];
    if r in x.queue {
      SessionFacts(g, s);
      WithoutFacts(x.queue, r);
      var q := [r] + Without(x.queue, r);
      var g1 := SetSession(g, s, x.(queue := q));
      ReorderInv(g, s, q);
      FlagsSound(g1, Sent(g, r), x.active.value);
    }
  }

  // ---- A turn that joins a chat ----

  /** A turn admitted finds its chat busy, or new: the slot of a registered chat is never free. */
  lemma AdmitFacts(g: State, r: RunRef, chat: Chat, owner: Owner, device: bool, compact: bool, s: SessionRef)
    requires Core(g) && Enabled(g, Admit(r, chat, owner, device, compact, s))
    ensures chat in g.threads ==>
              && g.threads[chat] in g.sessions
              && var x := g.sessions[g.threads[chat]];
                 x.active.Some? && x.chat == chat && !x.deleted && |x.queue| < MAX_QUEUED_TURNS
    ensures RunOk(g, r) && g.all[r].session.None?
    ensures chat in g.threads ==> r !in g.sessions[g.threads[chat]].queue && g.sessions[g.threads[chat]].active != Some(r)
  {
    hide Requests;
    if chat in g.threads {
      assert ThreadOk(g, chat);
      SessionFacts(g, g.threads[chat]);
    }
  }

  lemma AdmitRuns(g: State, g': State, r: RunRef, s: SessionRef)
    requires Core(g) && r in g.all && RunOk(g, r) && g.all[r].phase.Registered? && r in g'.all && CountsOk(g'.all[r])
    requires g'.runs == g.runs + {r} && g'.requests == g.requests && g'.all == g.all[r := g'.all[r]]
    requires g'.all[r].nonce == g.all[r].nonce && g'.all[r].session == Some(s) && s in g'.sessions
    requires || (g'.all[r].phase.Queued? && r in g'.sessions[s].queue)
             || (g'.all[r].phase.Launching? && g'.sessions[s].active == Some(r))
    ensures RunOk(g', r) && g'.runs <= g'.all.Keys
    ensures forall n :: n in g'.requests && g'.requests[n] == r ==> RequestOk(g', n)
  {
    hide Sessions, Runs, Threads;
    forall n | n in g'.requests && g'.requests[n] == r ensures RequestOk(g', n) { assert RequestOk(g, n); }
  }

  /** A turn joins a session, or opens one. */
  lemma JoinLocal(g: State, g': State, r: RunRef, s: SessionRef)
    requires Core(g) && r in g.all && g.all[r].session.None?
    requires s in g'.sessions && g'.sessions == g.sessions[s := g'.sessions[s]] && SessionOk(g', s)
    requires g'.sessions[s].active.Some?
    requires if s in g.sessions
             then g'.threads == g.threads && g'.sessions[s].chat == g.sessions[s].chat
                  && forall t :: t !in {r} ==> InPlace(g'.sessions[s], t) == InPlace(g.sessions[s], t)
             else g'.sessions[s].chat !in g.threads && g'.threads == g.threads[g'.sessions[s].chat := s]
    requires r in g'.all && g'.all == g.all[r := g'.all[r]] && g'.requests == g.requests && g'.runs == g.runs + {r}
    requires RunOk(g', r) && g'.runs <= g'.all.Keys
    requires forall n :: n in g'.requests && g'.requests[n] == r ==> RequestOk(g', n)
    ensures Core(g')
  {
    hide InPlace, SessionOk, RunOk, RequestOk, Sessions, Runs, Threads, Requests;
    LocalCore(g, g', s, {r});
  }

  lemma JoinCalm(g: State, g': State, r: RunRef)
    requires Sound(g) && Core(g') && r in g.all && r in g'.all && g'.all == g.all[r := g'.all[r]] && g'.working == g.working
    requires !IsWorking(g.all[r].phase) && !IsWorking(g'.all[r].phase)
    ensures Sound(g')
  {
    hide Core;
    assert Workers(g') == Workers(g);
  }

  lemma JoinInv(g: State, r: RunRef, chat: Chat, owner: Owner, device: bool, compact: bool, spare: SessionRef)
    requires Inv(g) && Enabled(g, Admit(r, chat, owner, device, compact, spare)) && chat in g.threads
    ensures Inv(Admitted(g, r, chat, owner, device, spare))
  {
    hide Core, Workers, MayJoin, SessionOk, RequestOk, InPlace;
    AdmitFacts(g, r, chat, owner, device, compact, spare);
    var s, g' := g.threads[chat], Admitted(g, r, chat, owner, device, spare);
    SessionFacts(g, s);
    assert g'.threads == g.threads;
    JoinSession(g, g', r, s);
    AdmitRuns(g, g', r, s);
    JoinLocal(g, g', r, s);
    JoinCalm(g, g', r);
  }

  lemma JoinSession(g: State, g': State, r: RunRef, s: SessionRef)
    requires s in g.sessions && r in g.all && SessionOk(g, s) && g.sessions[s].active.Some? && g.sessions[s].active != Some(r)
    requires var x := g.sessions[s];
             !x.deleted && |x.queue| < MAX_QUEUED_TURNS && r !in x.queue && g'.sessions == g.sessions[s := x.(queue := x.queue + [r])]
    requires g'.threads == g.threads && r in g'.all && g'.all == g.all[r := g'.all[r]]
    requires g'.all[r].session == Some(s) && g'.all[r].phase.Queued?
    ensures SessionOk(g', s)
    ensures forall t :: t !in {r} ==> InPlace(g'.sessions[s], t) == InPlace(g.sessions[s], t)
  {}

  lemma OpenInv(g: State, r: RunRef, chat: Chat, owner: Owner, device: bool, compact: bool, s: SessionRef)
    requires Inv(g) && Enabled(g, Admit(r, chat, owner, device, compact, s)) && chat !in g.threads
    ensures Inv(Admitted(g, r, chat, owner, device, s))
  {
    hide Core, Workers, MayJoin, RequestOk, InPlace;
    AdmitFacts(g, r, chat, owner, device, compact, s);
    var g' := Admitted(g, r, chat, owner, device, s);
    AdmitRuns(g, g', r, s);
    JoinLocal(g, g', r, s);
    JoinCalm(g, g', r);
  }

  lemma AdmitInv(g: State, r: RunRef, chat: Chat, owner: Owner, device: bool, compact: bool, s: SessionRef)
    requires Inv(g) && Enabled(g, Admit(r, chat, owner, device, compact, s))
    ensures Inv(Admitted(g, r, chat, owner, device, s))
  {
    hide Inv, Admitted, MayJoin;
    if chat in g.threads {
      JoinInv(g, r, chat, owner, device, compact, s);
    } else {
      OpenInv(g, r, chat, owner, device, compact, s);
    }
  }

  // ---- Transfers to a device ----

  /** A chat that may be moved is not registered at all, so the tombstone replaces nothing. */
  lemma TransferIsUnregistered(g: State, chat: Chat)
    requires Inv(g) && MayTransfer(g, chat)
    ensures chat !in g.threads
  {
    hide Runs, Requests, Workers;
    if chat in g.threads {
      ReorderThread(g, g.threads[chat]);
    }
  }

  lemma BeginTransferInv(g: State, chat: Chat, owner: Owner, s: SessionRef)
    requires Inv(g) && Enabled(g, BeginTransfer(chat, owner, s))
    ensures Inv(Next(g, BeginTransfer(chat, owner, s)))
  {
    hide Core, Workers, MayTransfer, InPlace;
    TransferIsUnregistered(g, chat);
    var g' := Next(g, BeginTransfer(chat, owner, s));
    SessionLocal(g, g', s);
    SameRunsSound(g, g');
  }

  lemma EndTransferInv(g: State, s: SessionRef)
    requires Inv(g) && s in g.sessions && g.sessions[s].tombstone
    ensures Inv(DropIdle(g, s))
  {
    hide Runs, Threads, Requests, Workers;
    var g' := DropIdle(g, s);
    assert SessionOk(g, s);
    SessionLocal(g, g', s);
    SameRunsSound(g, g');
  }

  // ---- Every step ----

  lemma StepInv(g: State, step: Step)
    requires Inv(g) && Enabled(g, step)
    ensures Inv(Next(g, step))
  {
    hide Inv, Advance, Admitted, Cancelled, Sent, RemoveQueued, StopEach, ShutEach, DropIdle, MayJoin, MayTransfer, Forget;
    match step
    case Register(r, nonce) => RegisterInv(g, r, nonce);
    case RefuseForget(r) => RefuseForgetInv(g, r);
    case Admit(r, chat, owner, device, compact, s) => AdmitInv(g, r, chat, owner, device, compact, s);
    case FailToStart(r) => FailToStartInv(g, r);
    case Commit(r) => CommitInv(g, r);
    case Cancel(r) => CancelInv(g, r);
    case Send(r) => SendInv(g, r);
    case Remove(r) => RemoveQueuedInv(g, r);
    case StopThread(chat) => StopEachInv(g, [chat], x => true);
    case StopDevice(chat) => StopEachInv(g, [chat], (x: Session) => x.device);
    case StopDevices(owner, chats) => StopEachInv(g, chats, (x: Session) => x.device && x.owner == owner);
    case Shutdown(chats) => ShutdownInv(g, chats);
    case BeginTransfer(chat, owner, s) => BeginTransferInv(g, chat, owner, s);
    case EndTransfer(s) => EndTransferInv(g, s);
    case _ => RunStepInv(g, step);
  }
}
