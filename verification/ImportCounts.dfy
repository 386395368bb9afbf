/**
 What an import's counters count, which entities it blocks, and that what can be stored is.
 */
module ImportCounts {
  import opened Options
  import opened CloudImport
  import opened CloudImportRuns

  // ---- What can be stored is ----

  /** The account does not already hold the entity under its own id, and says so if asked. */
  ghost predicate NotHeld(store: Store, held: set<string>, e: Entity, project: string, heldFails: bool) {
    e.source in held && MayBeHeld(e, project) ==> !heldFails && !Inspect(store, (e.kind, e.source), None).AnotherRow?
  }

  /** Another's row is at every id before the g-th, and each of those reads is answered. */
  ghost predicate PassesTo(store: Store, e: Entity, project: string, derive: Derive, answers: nat -> Answer, g: nat) {
    g < MAX_GENERATIONS && !answers(g).readFails && forall h: nat :: h < g ==> IsAnother(store, e, project, derive, h) && !answers(h).readFails
  }

  lemma {:induction false} TriedPasses(store: Store, e: Entity, project: string, derive: Derive, answers: nat -> Answer, h: nat, g: nat)
    requires PassesTo(store, e, project, derive, answers, g) && h <= g
    ensures Tried(store, e, project, derive, h, answers) == Tried(store, e, project, derive, g, answers)
    decreases g - h
  {
    hide RowKey, OriginOf;
    if h < g {
      assert IsAnother(store, e, project, derive, h);
      TriedPasses(store, e, project, derive, answers, h + 1, g);
    }
  }

  /** An entity whose first id that is not another's is vacant is stored there, under its own name, if it is built and its write answered. */
  lemma VacantIsStored(store: Store, held: set<string>, e: Entity, project: string, derive: Derive, heldFails: bool, answers: nat -> Answer, g: nat)
    requires NotHeld(store, held, e, project, heldFails) && PassesTo(store, e, project, derive, answers, g)
    requires RowKey(e, project, derive, g) !in store && !answers(g).buildFails && answers(g).push.Answered?
    ensures var r := Restored(store, held, e, project, derive, heldFails, answers);
            && r.outcome == StoredNow(derive(e.kind, e.source, g)) && r.pushes == 1 && r.landed
            && r.store == store[RowKey(e, project, derive, g) := Row(Some(Origin(e.kind, e.source, g)), true)]
  {
    hide RowKey, Inspect, Tried;
    TriedPasses(store, e, project, derive, answers, 0, g);
    VacantTried(store, e, project, derive, answers, g);
  }

  lemma VacantTried(store: Store, e: Entity, project: string, derive: Derive, answers: nat -> Answer, g: nat)
    requires g < MAX_GENERATIONS && !answers(g).readFails && RowKey(e, project, derive, g) !in store && !answers(g).buildFails && answers(g).push.Answered?
    ensures Tried(store, e, project, derive, g, answers) ==
            Try(store[RowKey(e, project, derive, g) := Row(Some(Origin(e.kind, e.source, g)), true)], StoredNow(derive(e.kind, e.source, g)), 1, true)
  {
    hide RowKey;
  }

  /** An entity whose first id that is not another's is its own row is found there, and nothing is written. */
  lemma OwnIsFound(store: Store, held: set<string>, e: Entity, project: string, derive: Derive, heldFails: bool, answers: nat -> Answer, g: nat)
    requires NotHeld(store, held, e, project, heldFails) && PassesTo(store, e, project, derive, answers, g)
    requires RowKey(e, project, derive, g) in store && store[RowKey(e, project, derive, g)] == Row(Some(Origin(e.kind, e.source, g)), true)
    ensures Restored(store, held, e, project, derive, heldFails, answers) == Try(store, StoredBefore(derive(e.kind, e.source, g)), 0, false)
  {
    hide RowKey, Tried;
    TriedPasses(store, e, project, derive, answers, 0, g);
    OwnTried(store, e, project, derive, answers, g);
  }

  lemma OwnTried(store: Store, e: Entity, project: string, derive: Derive, answers: nat -> Answer, g: nat)
    requires g < MAX_GENERATIONS && !answers(g).readFails
    requires RowKey(e, project, derive, g) in store && store[RowKey(e, project, derive, g)] == Row(Some(Origin(e.kind, e.source, g)), true)
    ensures Tried(store, e, project, derive, g, answers) == Try(store, StoredBefore(derive(e.kind, e.source, g)), 0, false)
  {
    hide RowKey;
  }

  // ---- What the counters count ----

  datatype Fate = Now | Before | Fails | Never

  /** What became of the entity at a place in the archive. */
  function FateOf(outcomes: map<nat, Outcome>, i: nat): Fate {
    if i !in outcomes then Never
    else match outcomes[i]
      case StoredNow(_) => Now
      case StoredBefore(_) => Before
      case Failed => Fails
  }

  /** How many of the first n entities, of those of a kind, met a fate. */
  function Count(outcomes: map<nat, Outcome>, entities: seq<Entity>, kind: Kind, n: nat, fate: Fate): nat
    requires n <= |entities|
  {
    if n == 0 then 0
    else Count(outcomes, entities, kind, n - 1, fate) + if entities[n - 1].kind == kind && FateOf(outcomes, n - 1) == fate then 1 else 0
  }

  /** Outcomes that differ only at entities of other kinds, or later ones, count the same. */
  lemma {:induction false} CountSame(a: map<nat, Outcome>, b: map<nat, Outcome>, entities: seq<Entity>, kind: Kind, n: nat, fate: Fate)
    requires n <= |entities| && forall i: nat :: i < n && entities[i].kind == kind ==> FateOf(a, i) == FateOf(b, i)
    ensures Count(a, entities, kind, n, fate) == Count(b, entities, kind, n, fate)
  {
    if n > 0 { CountSame(a, b, entities, kind, n - 1, fate); }
  }

  /** Three counters count the entities stored, found and failed so far; the last those passed over, if none is left. */
  ghost predicate Counts(j: Job, entities: seq<Entity>, kind: Kind, n: nat)
    requires n <= |entities|
  {
    var t := TallyOf(j, kind);
    && t.imported == Count(j.outcomes, entities, kind, n, Now)
    && t.skipped == Count(j.outcomes, entities, kind, n, Before)
    && t.failed == Count(j.outcomes, entities, kind, n, Fails)
    && (!j.stopped ==> t.blocked == Count(j.outcomes, entities, kind, n, Never))
  }

  /** No outcome of a kind from n on. */
  ghost predicate Unseen(j: Job, entities: seq<Entity>, kind: Kind, n: nat) {
    forall i: nat :: n <= i < |entities| && entities[i].kind == kind ==> i !in j.outcomes
  }

  lemma CountsOthers(j: Job, k: Job, entities: seq<Entity>, kind: Kind, n: nat)
    requires n <= |entities| && Counts(j, entities, kind, n) && TallyOf(k, kind) == TallyOf(j, kind) && (!k.stopped ==> !j.stopped)
    requires forall i: nat :: i < n && entities[i].kind == kind ==> FateOf(j.outcomes, i) == FateOf(k.outcomes, i)
    ensures Counts(k, entities, kind, n)
  {
    hide FateOf, TallyOf, Count;
    forall fate ensures Count(j.outcomes, entities, kind, n, fate) == Count(k.outcomes, entities, kind, n, fate) {
      CountSame(j.outcomes, k.outcomes, entities, kind, n, fate);
    }
  }

  /** What One does to the counters and outcomes. */
  lemma OneCounted(j: Job, e: Entity, i: nat, derive: Derive, env: Env)
    ensures var k, t := One(j, e, i, derive, env), TallyOf(j, e.kind);
            && (forall other :: other != e.kind ==> TallyOf(k, other) == TallyOf(j, other))
            && (if Blocks(j, e) then k.outcomes == j.outcomes && k.stopped == j.stopped && TallyOf(k, e.kind) == t.(blocked := t.blocked + 1)
                else
                  && i in k.outcomes && k.outcomes == j.outcomes[i := k.outcomes[i]]
                  && TallyOf(k, e.kind) == (match FateOf(k.outcomes, i)
                                            case Now => t.(imported := t.imported + 1)
                                            case Before => t.(skipped := t.skipped + 1)
                                            case Fails => t.(failed := t.failed + 1)
                                            case Never => t))
  {
    hide RestoredIn;
  }

  lemma OneCounts(j: Job, entities: seq<Entity>, i: nat, derive: Derive, env: Env, kind: Kind)
    requires i < |entities| && !j.stopped && kind == entities[i].kind && Counts(j, entities, kind, i) && Unseen(j, entities, kind, i)
    ensures var k := One(j, entities[i], i, derive, env); Counts(k, entities, kind, i + 1) && Unseen(k, entities, kind, i + 1)
  {
    hide One, Blocks, TallyOf;
    var k := One(j, entities[i], i, derive, env);
    OneCounted(j, entities[i], i, derive, env);
    forall fate ensures Count(j.outcomes, entities, kind, i, fate) == Count(k.outcomes, entities, kind, i, fate) {
      CountSame(j.outcomes, k.outcomes, entities, kind, i, fate);
    }
  }

  lemma {:induction false} PhaseCounts(j: Job, entities: seq<Entity>, kind: Kind, n: nat, derive: Derive, env: Env)
    requires n <= |entities| && Counts(j, entities, kind, 0) && Unseen(j, entities, kind, 0)
    ensures var k := Phased(j, entities, kind, n, derive, env); Counts(k, entities, kind, n) && Unseen(k, entities, kind, n)
  {
    hide One, TallyOf, Counts, Unseen;
    if n > 0 {
      PhaseCounts(j, entities, kind, n - 1, derive, env);
      var k := Phased(j, entities, kind, n - 1, derive, env);
      if !k.stopped && entities[n - 1].kind == kind { OneCounts(k, entities, n - 1, derive, env, kind); } else { NoneCounts(k, entities, kind, n - 1); }
    }
  }

  /** An entity of another kind, or not reached, counts for nothing but being passed over. */
  lemma NoneCounts(j: Job, entities: seq<Entity>, kind: Kind, i: nat)
    requires i < |entities| && (j.stopped || entities[i].kind != kind) && Counts(j, entities, kind, i) && Unseen(j, entities, kind, i)
    ensures Counts(j, entities, kind, i + 1) && Unseen(j, entities, kind, i + 1)
  {
    hide TallyOf;
  }

  /** A phase leaves the counters and outcomes of the other kinds alone. */
  lemma {:induction false} PhaseOthers(j: Job, entities: seq<Entity>, kind: Kind, n: nat, derive: Derive, env: Env, other: Kind)
    requires n <= |entities| && other != kind
    ensures var k := Phased(j, entities, kind, n, derive, env);
            && TallyOf(k, other) == TallyOf(j, other) && (!k.stopped ==> !j.stopped)
            && forall i: nat :: i < |entities| && entities[i].kind == other ==> (i in k.outcomes <==> i in j.outcomes) && FateOf(k.outcomes, i) == FateOf(j.outcomes, i)
  {
    hide One, TallyOf, Blocks;
    if n > 0 {
      PhaseOthers(j, entities, kind, n - 1, derive, env, other);
      OneCounted(Phased(j, entities, kind, n - 1, derive, env), entities[n - 1], n - 1, derive, env);
    }
  }

  lemma HeldSame(j: Job, entities: seq<Entity>, kind: Kind, env: Env)
    ensures var k := Held(j, entities, kind, env);
            && k.counts == j.counts && k.outcomes == j.outcomes && k.projects == j.projects && k.failed == j.failed
            && (!k.stopped ==> !j.stopped)
  {
    hide Has, HeldIn;
  }

  lemma KindCounts(j: Job, entities: seq<Entity>, kind: Kind, derive: Derive, env: Env)
    requires TallyOf(j, kind) == NONE && Unseen(j, entities, kind, 0)
    ensures Counts(OfKind(j, entities, kind, derive, env), entities, kind, |entities|)
  {
    hide Phased;
    HeldSame(j, entities, kind, env);
    PhaseCounts(Held(j, entities, kind, env), entities, kind, |entities|, derive, env);
  }

  lemma KindOthers(j: Job, entities: seq<Entity>, kind: Kind, derive: Derive, env: Env, other: Kind)
    requires other != kind
    ensures var k := OfKind(j, entities, kind, derive, env);
            && TallyOf(k, other) == TallyOf(j, other) && (!k.stopped ==> !j.stopped)
            && (Unseen(j, entities, other, 0) ==> Unseen(k, entities, other, 0))
            && (Counts(j, entities, other, |entities|) ==> Counts(k, entities, other, |entities|))
  {
    hide Phased, FateOf;
    var h := Held(j, entities, kind, env);
    HeldSame(j, entities, kind, env);
    PhaseOthers(h, entities, kind, |entities|, derive, env, other);
    if Counts(j, entities, other, |entities|) { CountsOthers(j, OfKind(j, entities, kind, derive, env), entities, other, |entities|); }
  }

  /**
   Imported, skipped and failed are how many entities of a kind were stored, were found
   stored and failed, even in a run cut short; and blocked is how many were passed over
   when it was not.
   */
  lemma CountersCount(store: Store, entities: seq<Entity>, derive: Derive, env: Env, kind: Kind)
    ensures Counts(Imported(store, entities, derive, env), entities, kind, |entities|)
  {
    hide OfKind, Counts, TallyOf, Started;
    var a := Started(store);
    var b := OfKind(a, entities, Project, derive, env);
    var c := OfKind(b, entities, Document, derive, env);
    StartCounts(store, entities, kind);
    if kind != Project { KindOthers(a, entities, Project, derive, env, kind); } else { KindCounts(a, entities, Project, derive, env); }
    if kind != Document { KindOthers(b, entities, Document, derive, env, kind); } else { KindCounts(b, entities, Document, derive, env); }
    if kind != Chat { KindOthers(c, entities, Chat, derive, env, kind); } else { KindCounts(c, entities, Chat, derive, env); }
  }

  lemma StartCounts(store: Store, entities: seq<Entity>, kind: Kind)
    ensures TallyOf(Started(store), kind) == NONE && Unseen(Started(store), entities, kind, 0)
  {}

  // ---- Which entities are blocked ----

  /** The entity asks for a project that was not stored, or that failed. */
  predicate LacksProject(j: Job, e: Entity) {
    !e.kind.Project? && (e.kind.Document? || e.project != "") && (e.project !in j.projects || e.project in j.failed)
  }

  /** Of the first n entities of a kind, those tried are those that do not lack their project. */
  ghost predicate BlockedRight(j: Job, entities: seq<Entity>, kind: Kind, n: nat) {
    forall i: nat :: i < n && i < |entities| && entities[i].kind == kind ==> (i in j.outcomes <==> !LacksProject(j, entities[i]))
  }

  lemma OneBlocks(j: Job, e: Entity, i: nat, derive: Derive, env: Env)
    ensures Blocks(j, e) == LacksProject(j, e)
    ensures var k := One(j, e, i, derive, env);
            && (!e.kind.Project? ==> k.projects == j.projects && k.failed == j.failed)
            && k.outcomes.Keys == j.outcomes.Keys + (if LacksProject(j, e) then {} else {i})
  {
    hide RestoredIn;
  }

  lemma SameLack(j: Job, k: Job)
    ensures forall e: Entity :: e.kind.Project? ==> !LacksProject(k, e) && !LacksProject(j, e)
    ensures j.projects == k.projects && j.failed == k.failed ==> forall e: Entity :: LacksProject(k, e) == LacksProject(j, e)
  {}

  lemma {:induction false} PhaseBlocks(j: Job, entities: seq<Entity>, kind: Kind, n: nat, derive: Derive, env: Env)
    requires n <= |entities| && Unseen(j, entities, kind, 0)
    ensures var k := Phased(j, entities, kind, n, derive, env);
            && (!kind.Project? ==> k.projects == j.projects && k.failed == j.failed)
            && (!k.stopped ==> BlockedRight(k, entities, kind, n))
            && (forall i: nat :: n <= i < |entities| && entities[i].kind == kind ==> i !in k.outcomes)
  {
    hide One, Blocks, LacksProject;
    if n > 0 {
      PhaseBlocks(j, entities, kind, n - 1, derive, env);
      var k := Phased(j, entities, kind, n - 1, derive, env);
      OneBlocks(k, entities[n - 1], n - 1, derive, env);
      SameLack(k, One(k, entities[n - 1], n - 1, derive, env));
    }
  }

  lemma KindBlocks(j: Job, entities: seq<Entity>, kind: Kind, derive: Derive, env: Env)
    requires Unseen(j, entities, kind, 0)
    ensures var k := OfKind(j, entities, kind, derive, env);
            && (!kind.Project? ==> k.projects == j.projects && k.failed == j.failed)
            && (!k.stopped ==> BlockedRight(k, entities, kind, |entities|))
  {
    hide Phased, LacksProject;
    HeldSame(j, entities, kind, env);
    PhaseBlocks(Held(j, entities, kind, env), entities, kind, |entities|, derive, env);
  }

  lemma OthersBlocked(j: Job, entities: seq<Entity>, kind: Kind, derive: Derive, env: Env, other: Kind)
    requires other != kind && BlockedRight(j, entities, other, |entities|)
    requires other.Project? || (OfKind(j, entities, kind, derive, env).projects == j.projects && OfKind(j, entities, kind, derive, env).failed == j.failed)
    ensures BlockedRight(OfKind(j, entities, kind, derive, env), entities, other, |entities|)
  {
    hide Phased, FateOf, TallyOf;
    HeldSame(j, entities, kind, env);
    PhaseOthers(Held(j, entities, kind, env), entities, kind, |entities|, derive, env, other);
  }

  /** In a run that reaches its end, an entity is passed over exactly if the project it needs was not stored. */
  lemma BlockedExactly(store: Store, entities: seq<Entity>, derive: Derive, env: Env, i: nat)
    requires !Imported(store, entities, derive, env).stopped && i < |entities|
    ensures var j := Imported(store, entities, derive, env);
            i in j.outcomes <==> !LacksProject(j, entities[i])
  {
    hide OfKind, TallyOf, Started, LacksProject, BlockedRight;
    var a := Started(store);
    var b := OfKind(a, entities, Project, derive, env);
    var c := OfKind(b, entities, Document, derive, env);
    var kind := entities[i].kind;
    forall k ensures Unseen(a, entities, k, 0) { StartCounts(store, entities, k); }
    KindOthers(a, entities, Project, derive, env, Document);
    KindOthers(a, entities, Project, derive, env, Chat);
    KindOthers(b, entities, Document, derive, env, Chat);
    KindOthers(c, entities, Chat, derive, env, Document);
    KindBlocks(a, entities, Project, derive, env);
    KindBlocks(b, entities, Document, derive, env);
    KindBlocks(c, entities, Chat, derive, env);
    if kind.Project? { OthersBlocked(b, entities, Document, derive, env, Project); }
    if !kind.Chat? { OthersBlocked(c, entities, Chat, derive, env, kind); }
    RightMeans(Imported(store, entities, derive, env), entities, kind, i);
  }

  lemma RightMeans(j: Job, entities: seq<Entity>, kind: Kind, i: nat)
    requires BlockedRight(j, entities, kind, |entities|) && i < |entities| && entities[i].kind == kind
    ensures i in j.outcomes <==> !LacksProject(j, entities[i])
  {}
}
