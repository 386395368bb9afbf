/**
 A whole import, and the same import run again.
 */
module CloudImportRuns {
  import opened CloudImport

  datatype Tally = Tally(imported: nat, skipped: nat, failed: nat, blocked: nat)

  const NONE := Tally(0, 0, 0, 0)

  /** What the store answers through one run: entity by entity, and whether a failure is one every later entity would meet. */
  datatype Env = Env(listFails: Kind -> bool, heldFails: nat -> bool, answers: nat -> nat -> Answer, stops: nat -> bool)

  /** An import under way; outcomes, writes and the rows that landed are by the entity's place in the archive. */
  datatype Job = Job(
    store: Store,
    held: set<string>,
    projects: map<string, string>,
    failed: set<string>,
    counts: map<Kind, Tally>,
    stopped: bool,
    outcomes: map<nat, Outcome>,
    pushes: map<nat, nat>,
    landed: set<nat>)

  function Started(store: Store): Job {
    Job(store, {}, map[], {}, map[Project := NONE, Document := NONE, Chat := NONE], false, map[], map[], {})
  }

  function TallyOf(j: Job, kind: Kind): Tally { if kind in j.counts then j.counts[kind] else NONE }

  /** An entity whose project was not stored. */
  predicate Blocks(j: Job, e: Entity) {
    match e.kind
    case Project => false
    case Document => e.project !in j.projects || e.project in j.failed
    case Chat => e.project != "" && (e.project !in j.projects || e.project in j.failed)
  }

  /** The project id that prefixes the row id of a document. */
  function Filing(j: Job, e: Entity): string {
    if e.kind.Document? && e.project in j.projects then j.projects[e.project] else ""
  }

  function Blocked(j: Job, e: Entity): Job {
    var c := TallyOf(j, e.kind);
    j.(counts := j.counts[e.kind := c.(blocked := c.blocked + 1)])
  }

  /** Records what became of an entity. */
  function Counted(j: Job, e: Entity, o: Outcome): Job {
    var c := TallyOf(j, e.kind);
    j.(counts := j.counts[e.kind := match o
                                    case Failed => c.(failed := c.failed + 1)
                                    case StoredBefore(_) => c.(skipped := c.skipped + 1)
                                    case StoredNow(_) => c.(imported := c.imported + 1)])
  }

  function Kept(j: Job, e: Entity, i: nat, r: Try, stops: bool): Job {
    j.(store := r.store, outcomes := j.outcomes[i := r.outcome], pushes := j.pushes[i := r.pushes],
       landed := if r.landed then j.landed + {i} else j.landed - {i},
       projects := if e.kind.Project? && !r.outcome.Failed? then j.projects[e.source := r.outcome.id] else j.projects,
       failed := if e.kind.Project? && r.outcome.Failed? then j.failed + {e.source} else j.failed,
       stopped := r.outcome.Failed? && stops)
  }

  function Took(j: Job, e: Entity, i: nat, r: Try, stops: bool): Job { Counted(Kept(j, e, i, r, stops), e, r.outcome) }

  function RestoredIn(j: Job, e: Entity, i: nat, derive: Derive, env: Env): Try {
    Restored(j.store, j.held, e, Filing(j, e), derive, env.heldFails(i), env.answers(i))
  }

  function One(j: Job, e: Entity, i: nat, derive: Derive, env: Env): Job {
    if Blocks(j, e) then Blocked(j, e) else Took(j, e, i, RestoredIn(j, e, i, derive, env), env.stops(i))
  }

  /** The first n entities, those of one kind. */
  function Phased(j: Job, entities: seq<Entity>, kind: Kind, n: nat, derive: Derive, env: Env): Job
    requires n <= |entities|
  {
    if n == 0 then j
    else
      var k := Phased(j, entities, kind, n - 1, derive, env);
      if k.stopped || entities[n - 1].kind != kind then k else One(k, entities[n - 1], n - 1, derive, env)
  }

  function HeldIn(store: Store, kind: Kind): set<string> {
    set k | k in store && k.0 == kind :: k.1
  }

  predicate Has(entities: seq<Entity>, kind: Kind) { exists i :: 0 <= i < |entities| && entities[i].kind == kind }

  /** hold: what the account holds where a kind's entities are stored. */
  function Held(j: Job, entities: seq<Entity>, kind: Kind, env: Env): Job {
    if j.stopped then j
    else if !Has(entities, kind) then j.(held := {})
    else if env.listFails(kind) then j.(stopped := true)
    else j.(held := HeldIn(j.store, kind))
  }

  function OfKind(j: Job, entities: seq<Entity>, kind: Kind, derive: Derive, env: Env): Job {
    Phased(Held(j, entities, kind, env), entities, kind, |entities|, derive, env)
  }

  function Imported(store: Store, entities: seq<Entity>, derive: Derive, env: Env): Job {
    OfKind(OfKind(OfKind(Started(store), entities, Project, derive, env), entities, Document, derive, env), entities, Chat, derive, env)
  }

  /** One phase of store: holds, then restores, counts or blocks every entity of a kind. */
  method StoreKind(j: Job, entities: seq<Entity>, kind: Kind, derive: Derive, env: Env) returns (k: Job)
    ensures k == OfKind(j, entities, kind, derive, env)
  {
    hide Restored, Blocks, Blocked, Took, Filing;
    ghost var start := Held(j, entities, kind, env);
    k := Held(j, entities, kind, env);
    for i := 0 to |entities|
      invariant k == Phased(start, entities, kind, i, derive, env)
    {
      if !k.stopped && entities[i].kind == kind {
        var e := entities[i];
        if Blocks(k, e) {
          k := Blocked(k, e);
        } else {
          var r := Restore(k.store, k.held, e, Filing(k, e), derive, env.heldFails(i), env.answers(i));
          k := Took(k, e, i, r, env.stops(i));
        }
      }
    }
  }

  method StoreAll(store: Store, entities: seq<Entity>, derive: Derive, env: Env) returns (j: Job)
    ensures j == Imported(store, entities, derive, env)
  {
    j := StoreKind(Started(store), entities, Project, derive, env);
    j := StoreKind(j, entities, Document, derive, env);
    j := StoreKind(j, entities, Chat, derive, env);
  }

  // ---- Accounting ----

  function Number(entities: seq<Entity>, kind: Kind, n: nat): nat
    requires n <= |entities|
  {
    if n == 0 then 0 else Number(entities, kind, n - 1) + if entities[n - 1].kind == kind then 1 else 0
  }

  function Sum(t: Tally): nat { t.imported + t.skipped + t.failed + t.blocked }

  lemma CountedOne(j: Job, e: Entity, o: Outcome, kind: Kind)
    ensures Sum(TallyOf(Counted(j, e, o), kind)) == Sum(TallyOf(j, kind)) + if e.kind == kind then 1 else 0
    ensures e.kind != kind ==> TallyOf(Counted(j, e, o), kind) == TallyOf(j, kind)
  {}

  lemma OneCounts(j: Job, e: Entity, i: nat, derive: Derive, env: Env, kind: Kind)
    ensures Sum(TallyOf(One(j, e, i, derive, env), kind)) == Sum(TallyOf(j, kind)) + if e.kind == kind then 1 else 0
    ensures e.kind != kind ==> TallyOf(One(j, e, i, derive, env), kind) == TallyOf(j, kind)
  {
    hide RestoredIn, Took, Blocked, TallyOf, Sum;
    BlockedCounts(j, e, kind);
    TookCounts(j, e, i, RestoredIn(j, e, i, derive, env), env.stops(i), kind);
  }

  lemma BlockedCounts(j: Job, e: Entity, kind: Kind)
    ensures Sum(TallyOf(Blocked(j, e), kind)) == Sum(TallyOf(j, kind)) + if e.kind == kind then 1 else 0
    ensures e.kind != kind ==> TallyOf(Blocked(j, e), kind) == TallyOf(j, kind)
  {}

  lemma TookCounts(j: Job, e: Entity, i: nat, r: Try, stops: bool, kind: Kind)
    ensures var k := Took(j, e, i, r, stops);
            && Sum(TallyOf(k, kind)) == Sum(TallyOf(j, kind)) + (if e.kind == kind then 1 else 0)
            && (e.kind != kind ==> TallyOf(k, kind) == TallyOf(j, kind))
  {
    hide Counted, Sum;
    var k := Kept(j, e, i, r, stops);
    assert TallyOf(k, kind) == TallyOf(j, kind);
    CountedOne(k, e, r.outcome, kind);
  }

  lemma {:induction false} PhaseCounts(j: Job, entities: seq<Entity>, kind: Kind, n: nat, derive: Derive, env: Env, other: Kind)
    requires n <= |entities|
    ensures var k := Phased(j, entities, kind, n, derive, env);
            && (!k.stopped ==> !j.stopped)
            && (other != kind ==> TallyOf(k, other) == TallyOf(j, other))
            && (!k.stopped ==> Sum(TallyOf(k, kind)) == Sum(TallyOf(j, kind)) + Number(entities, kind, n))
  {
    hide One, TallyOf, Sum;
    if n > 0 {
      PhaseCounts(j, entities, kind, n - 1, derive, env, other);
      OneCounts(Phased(j, entities, kind, n - 1, derive, env), entities[n - 1], n - 1, derive, env, kind);
      OneCounts(Phased(j, entities, kind, n - 1, derive, env), entities[n - 1], n - 1, derive, env, other);
    }
  }

  lemma KindCounts(j: Job, entities: seq<Entity>, kind: Kind, derive: Derive, env: Env, other: Kind)
    ensures var k := OfKind(j, entities, kind, derive, env);
            && (!k.stopped ==> !j.stopped)
            && (other != kind ==> TallyOf(k, other) == TallyOf(j, other))
            && (!k.stopped ==> Sum(TallyOf(k, kind)) == Sum(TallyOf(j, kind)) + Number(entities, kind, |entities|))
  {
    hide Phased, Sum, Number;
    PhaseCounts(Held(j, entities, kind, env), entities, kind, |entities|, derive, env, other);
  }

  /** When a run reaches the end, imported, skipped, failed and blocked add up to the entities of each kind. */
  lemma ImportAddsUp(store: Store, entities: seq<Entity>, derive: Derive, env: Env, kind: Kind)
    requires !Imported(store, entities, derive, env).stopped
    ensures Sum(TallyOf(Imported(store, entities, derive, env), kind)) == Number(entities, kind, |entities|)
  {
    hide OfKind, Number, TallyOf, Sum, Started;
    var a := Started(store);
    var b := OfKind(a, entities, Project, derive, env);
    var c := OfKind(b, entities, Document, derive, env);
    KindCounts(a, entities, Project, derive, env, kind);
    KindCounts(b, entities, Document, derive, env, kind);
    KindCounts(c, entities, Chat, derive, env, kind);
    StartedNone(store, kind);
  }

  lemma StartedNone(store: Store, kind: Kind)
    ensures Sum(TallyOf(Started(store), kind)) == 0
  {}

  // ---- What a run leaves settled ----

  /** A project of the archive stored under an id. */
  ghost predicate ProjectAt(j: Job, entities: seq<Entity>, derive: Derive, source: string, id: string) {
    exists i :: 0 <= i < |entities| && entities[i].kind.Project? && entities[i].source == source && Settled(j.store, entities[i], "", derive, id)
  }

  ghost predicate OutcomeOk(j: Job, entities: seq<Entity>, derive: Derive, i: nat)
    requires i in j.outcomes
  {
    && i < |entities|
    && (!j.outcomes[i].Failed? ==> Settled(j.store, entities[i], Filing(j, entities[i]), derive, j.outcomes[i].id))
    && (Done(j, i) ==>
          && IsSettled(j.store, entities[i], Filing(j, entities[i]), derive)
          && (entities[i].kind.Document? ==> entities[i].project in j.projects))
  }

  /** The run stored the entity, found it stored, or left its row behind though it was told it failed. */
  predicate Done(j: Job, i: nat) { i in j.outcomes && (!j.outcomes[i].Failed? || i in j.landed) }

  /** Whatever was stored, found or left behind is found where it is. */
  ghost predicate JobOk(j: Job, entities: seq<Entity>, derive: Derive) {
    && (forall source :: source in j.projects ==> ProjectAt(j, entities, derive, source, j.projects[source]))
    && (forall i :: i in j.outcomes ==> OutcomeOk(j, entities, derive, i))
  }

  /** A phase of one kind under way, from a store. */
  ghost predicate PhaseOk(s: Store, j: Job, entities: seq<Entity>, derive: Derive, kind: Kind) {
    && JobOk(j, entities, derive) && Grows(s, j.store, entities)
    && (!j.stopped ==> HeldOk(j.store, j.held, kind, entities))
    && (kind.Project? ==> forall i :: i in j.outcomes && i < |entities| ==> entities[i].kind.Project?)
  }

  lemma ProjectsStay(j: Job, k: Job, entities: seq<Entity>, derive: Derive, source: string, id: string)
    requires Grows(j.store, k.store, entities) && ProjectAt(j, entities, derive, source, id)
    ensures ProjectAt(k, entities, derive, source, id)
  {
    hide Settled;
    var i :| 0 <= i < |entities| && entities[i].kind.Project? && entities[i].source == source && Settled(j.store, entities[i], "", derive, id);
    SettledStays(j.store, k.store, entities[i], "", derive, id, entities);
  }

  lemma HeldOkStays(s: Store, t: Store, held: set<string>, kind: Kind, entities: seq<Entity>)
    requires Grows(s, t, entities) && HeldOk(s, held, kind, entities)
    ensures HeldOk(t, held, kind, entities)
  {}

  lemma OneOk(s: Store, j: Job, entities: seq<Entity>, i: nat, derive: Derive, env: Env)
    requires NoClash(entities, derive) && i < |entities| && PhaseOk(s, j, entities, derive, entities[i].kind) && !j.stopped
    ensures PhaseOk(s, One(j, entities[i], i, derive, env), entities, derive, entities[i].kind)
  {
    hide Settled, NoClash, Restored, HeldOk, Grows;
    var e, k := entities[i], One(j, entities[i], i, derive, env);
    if !Blocks(j, e) {
      var r := RestoredIn(j, e, i, derive, env);
      RestoreSettles(j.store, j.held, e, Filing(j, e), derive, env.heldFails(i), env.answers(i), entities);
      GrowsOn(s, j.store, r.store, entities);
      HeldOkStays(j.store, r.store, j.held, e.kind, entities);
      TookOk(j, k, entities, i, derive, r, env.stops(i));
    } else {
      BlockedOk(j, e, entities, derive);
    }
  }

  lemma BlockedOk(j: Job, e: Entity, entities: seq<Entity>, derive: Derive)
    requires JobOk(j, entities, derive)
    ensures JobOk(Blocked(j, e), entities, derive)
  {
    hide Settled;
    var k := Blocked(j, e);
    forall source | source in k.projects ensures ProjectAt(k, entities, derive, source, k.projects[source]) {
      assert ProjectAt(j, entities, derive, source, j.projects[source]);
    }
    forall n | n in k.outcomes ensures OutcomeOk(k, entities, derive, n) { assert OutcomeOk(j, entities, derive, n); }
  }

  lemma TookOk(j: Job, k: Job, entities: seq<Entity>, i: nat, derive: Derive, r: Try, stops: bool)
    requires i < |entities| && JobOk(j, entities, derive) && !Blocks(j, entities[i]) && Grows(j.store, r.store, entities)
    requires entities[i].kind.Project? ==> forall n :: n in j.outcomes && n < |entities| ==> entities[n].kind.Project?
    requires !r.outcome.Failed? ==> Settled(r.store, entities[i], Filing(j, entities[i]), derive, r.outcome.id)
    requires r.landed ==> IsSettled(r.store, entities[i], Filing(j, entities[i]), derive)
    requires k == Took(j, entities[i], i, r, stops)
    ensures JobOk(k, entities, derive)
  {
    hide Settled, Grows;
    var e := entities[i];
    forall source | source in k.projects ensures ProjectAt(k, entities, derive, source, k.projects[source]) {
      if !(e.kind.Project? && !r.outcome.Failed? && source == e.source) {
        ProjectsStay(j, k, entities, derive, source, j.projects[source]);
      }
    }
    forall n | n in k.outcomes ensures OutcomeOk(k, entities, derive, n) {
      if n != i {
        assert OutcomeOk(j, entities, derive, n);
        if !k.outcomes[n].Failed? {
          SettledStays(j.store, k.store, entities[n], Filing(j, entities[n]), derive, j.outcomes[n].id, entities);
        } else if Done(j, n) {
          var id :| Settled(j.store, entities[n], Filing(j, entities[n]), derive, id);
          SettledStays(j.store, k.store, entities[n], Filing(j, entities[n]), derive, id, entities);
        }
      }
    }
  }

  lemma {:induction false} PhasedOk(s: Store, j: Job, entities: seq<Entity>, kind: Kind, n: nat, derive: Derive, env: Env)
    requires n <= |entities| && NoClash(entities, derive) && PhaseOk(s, j, entities, derive, kind)
    ensures PhaseOk(s, Phased(j, entities, kind, n, derive, env), entities, derive, kind)
  {
    hide PhaseOk, NoClash, One;
    if n > 0 {
      PhasedOk(s, j, entities, kind, n - 1, derive, env);
      var k := Phased(j, entities, kind, n - 1, derive, env);
      if !k.stopped && entities[n - 1].kind == kind { OneOk(s, k, entities, n - 1, derive, env); }
    }
  }

  lemma HeldIsOk(store: Store, kind: Kind, entities: seq<Entity>)
    ensures HeldOk(store, HeldIn(store, kind), kind, entities)
    ensures !Has(entities, kind) ==> HeldOk(store, {}, kind, entities)
  {
    forall i | 0 <= i < |entities| && entities[i].kind == kind
      ensures entities[i].source in HeldIn(store, kind) <==> (kind, entities[i].source) in store
    {
      if (kind, entities[i].source) in store {
        var key := (kind, entities[i].source);
        assert key in store && key.0 == kind && key.1 == entities[i].source;
      }
    }
  }

  lemma SameJob(j: Job, k: Job, entities: seq<Entity>, derive: Derive)
    requires JobOk(j, entities, derive) && k.store == j.store && k.projects == j.projects && k.outcomes == j.outcomes && k.landed == j.landed
    ensures JobOk(k, entities, derive)
  {
    hide Settled;
    forall source | source in k.projects ensures ProjectAt(k, entities, derive, source, k.projects[source]) {
      assert ProjectAt(j, entities, derive, source, j.projects[source]);
    }
    forall n | n in k.outcomes ensures OutcomeOk(k, entities, derive, n) { assert OutcomeOk(j, entities, derive, n); }
  }

  lemma HeldPhase(s: Store, j: Job, entities: seq<Entity>, kind: Kind, derive: Derive, env: Env)
    requires JobOk(j, entities, derive) && Grows(s, j.store, entities) && (kind.Project? ==> j.outcomes == map[])
    ensures PhaseOk(s, Held(j, entities, kind, env), entities, derive, kind)
  {
    hide Grows, HeldOk, Has, HeldIn, OutcomeOk, ProjectAt;
    HeldIsOk(j.store, kind, entities);
    SameJob(j, Held(j, entities, kind, env), entities, derive);
  }

  lemma StartOk(store: Store, entities: seq<Entity>, derive: Derive)
    ensures JobOk(Started(store), entities, derive) && Grows(store, store, entities)
  {}

  lemma KindOk(s: Store, j: Job, entities: seq<Entity>, kind: Kind, derive: Derive, env: Env)
    requires NoClash(entities, derive) && JobOk(j, entities, derive) && Grows(s, j.store, entities)
    requires kind.Project? ==> j.outcomes == map[]
    ensures var k := OfKind(j, entities, kind, derive, env); JobOk(k, entities, derive) && Grows(s, k.store, entities)
  {
    hide NoClash, JobOk, Grows, HeldOk, Held, Phased;
    HeldPhase(s, j, entities, kind, derive, env);
    PhasedOk(s, Held(j, entities, kind, env), entities, kind, |entities|, derive, env);
  }

  /** After a run, everything it stored or found is settled in the store it leaves. */
  lemma ImportSettles(store: Store, entities: seq<Entity>, derive: Derive, env: Env)
    requires NoClash(entities, derive)
    ensures var j := Imported(store, entities, derive, env); JobOk(j, entities, derive) && Grows(store, j.store, entities)
  {
    hide NoClash, JobOk, Grows, OfKind;
    var a := Started(store);
    StartOk(store, entities, derive);
    KindOk(store, a, entities, Project, derive, env);
    var b := OfKind(a, entities, Project, derive, env);
    KindOk(store, b, entities, Document, derive, env);
    KindOk(store, OfKind(b, entities, Document, derive, env), entities, Chat, derive, env);
  }

  // ---- The same import again ----

  /** Nothing the first run stored has been written again. */
  ghost predicate Quiet(first: Job, j: Job) {
    forall i :: i in j.pushes && Done(first, i) ==> j.pushes[i] == 0
  }

  lemma SettledSame(store: Store, e: Entity, f: Entity, derive: Derive, id: string)
    requires e.kind.Project? && f.kind.Project? && e.source == f.source && Settled(store, e, "", derive, id)
    ensures Settled(store, f, "", derive, id)
  {
    forall g: nat ensures SettledAt(store, e, "", derive, g) == SettledAt(store, f, "", derive, g) {
      forall h: nat ensures IsAnother(store, e, "", derive, h) == IsAnother(store, f, "", derive, h) {}
    }
  }

  /** Two runs file a document under the same project. */
  lemma SameProject(first: Job, j: Job, entities: seq<Entity>, derive: Derive, source: string)
    requires JobOk(first, entities, derive) && JobOk(j, entities, derive) && Grows(first.store, j.store, entities)
    requires source in first.projects && source in j.projects
    ensures first.projects[source] == j.projects[source]
  {
    hide Settled, Grows;
    assert ProjectAt(first, entities, derive, source, first.projects[source]);
    assert ProjectAt(j, entities, derive, source, j.projects[source]);
    ProjectsStay(first, j, entities, derive, source, first.projects[source]);
    var a :| 0 <= a < |entities| && entities[a].kind.Project? && entities[a].source == source && Settled(j.store, entities[a], "", derive, first.projects[source]);
    var b :| 0 <= b < |entities| && entities[b].kind.Project? && entities[b].source == source && Settled(j.store, entities[b], "", derive, j.projects[source]);
    SettledSame(j.store, entities[a], entities[b], derive, first.projects[source]);
    SettledOnce(j.store, entities[b], "", derive, first.projects[source], j.projects[source]);
  }

  lemma AgainOne(first: Job, j: Job, entities: seq<Entity>, i: nat, derive: Derive, env: Env)
    requires i < |entities| && JobOk(first, entities, derive) && PhaseOk(first.store, j, entities, derive, entities[i].kind)
    requires !j.stopped && !Blocks(j, entities[i]) && Done(first, i)
    ensures RestoredIn(j, entities[i], i, derive, env).pushes == 0
  {
    hide Settled, Grows, HeldOk, Restored;
    var e := entities[i];
    assert OutcomeOk(first, entities, derive, i);
    if e.kind.Document? { SameProject(first, j, entities, derive, e.project); }
    var id :| Settled(first.store, e, Filing(first, e), derive, id);
    SettledStays(first.store, j.store, e, Filing(j, e), derive, id, entities);
    SettledIsFound(j.store, j.held, e, Filing(j, e), derive, env.heldFails(i), env.answers(i), entities, id);
  }

  lemma OnePushes(j: Job, e: Entity, i: nat, derive: Derive, env: Env)
    ensures One(j, e, i, derive, env).pushes == if Blocks(j, e) then j.pushes else j.pushes[i := RestoredIn(j, e, i, derive, env).pushes]
  {
    hide RestoredIn;
  }

  lemma {:induction false} AgainPhase(first: Job, j: Job, entities: seq<Entity>, kind: Kind, n: nat, derive: Derive, env: Env)
    requires n <= |entities| && NoClash(entities, derive) && JobOk(first, entities, derive)
    requires PhaseOk(first.store, j, entities, derive, kind) && Quiet(first, j)
    ensures Quiet(first, Phased(j, entities, kind, n, derive, env))
  {
    hide PhaseOk, NoClash, JobOk, One, RestoredIn, Done, Blocks;
    if n > 0 {
      AgainPhase(first, j, entities, kind, n - 1, derive, env);
      var k := Phased(j, entities, kind, n - 1, derive, env);
      PhasedOk(first.store, j, entities, kind, n - 1, derive, env);
      OnePushes(k, entities[n - 1], n - 1, derive, env);
      if !k.stopped && entities[n - 1].kind == kind && !Blocks(k, entities[n - 1]) && Done(first, n - 1) {
        AgainOne(first, k, entities, n - 1, derive, env);
      }
    }
  }

  lemma AgainKind(first: Job, j: Job, entities: seq<Entity>, kind: Kind, derive: Derive, env: Env)
    requires NoClash(entities, derive) && JobOk(first, entities, derive) && JobOk(j, entities, derive)
    requires Grows(first.store, j.store, entities) && Quiet(first, j) && (kind.Project? ==> j.outcomes == map[])
    ensures Quiet(first, OfKind(j, entities, kind, derive, env))
  {
    hide NoClash, JobOk, Grows, Phased, Done;
    HeldPhase(first.store, j, entities, kind, derive, env);
    AgainPhase(first, Held(j, entities, kind, env), entities, kind, |entities|, derive, env);
  }

  /**
   A second run of the same import over the store the first left writes no row for any
   entity the first run stored or found, nor for one whose row landed though the first run
   was told it failed, whatever either run's reads and writes met, and even if derived ids
   are the same for different entities.
   */
  lemma SecondRunWritesNothing(store: Store, entities: seq<Entity>, derive: Derive, env: Env, env2: Env, i: nat)
    requires NoClash(entities, derive)
    requires Done(Imported(store, entities, derive, env), i)
    ensures var second := Imported(Imported(store, entities, derive, env).store, entities, derive, env2);
            i in second.pushes ==> second.pushes[i] == 0
  {
    hide NoClash, JobOk, Grows, OfKind;
    var first := Imported(store, entities, derive, env);
    ImportSettles(store, entities, derive, env);
    var a := Started(first.store);
    StartOk(first.store, entities, derive);
    AgainKind(first, a, entities, Project, derive, env2);
    KindOk(first.store, a, entities, Project, derive, env2);
    var b := OfKind(a, entities, Project, derive, env2);
    AgainKind(first, b, entities, Document, derive, env2);
    KindOk(first.store, b, entities, Document, derive, env2);
    AgainKind(first, OfKind(b, entities, Document, derive, env2), entities, Chat, derive, env2);
  }
}
