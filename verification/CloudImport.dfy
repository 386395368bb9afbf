/**
 Storing a cloud archive (internal/archives/cloudimport.go): each entity goes under the
 first of its derived ids whose row is vacant, an entity found stored is not stored
 again, and every entity is counted. What the store answers is given: a read may fail,
 and a write may fail, be refused, or land with its answer lost.
 */
module CloudImport {
  import opened Options

  const MAX_GENERATIONS: nat := 100

  datatype Kind = Project | Document | Chat

  datatype Entity = Entity(kind: Kind, source: string, project: string)

  /** Which entity of the import a row holds, and which copy. */
  datatype Origin = Origin(kind: Kind, source: string, generation: nat)

  /** A stored row; readable is whether the caller's key opens it. */
  datatype Row = Row(origin: Option<Origin>, readable: bool)

  type Store = map<(Kind, string), Row>

  /** The id an entity's copy is stored under; nothing keeps two from being one. */
  type Derive = (Kind, string, nat) -> string

  function RowId(e: Entity, project: string, id: string): string {
    if e.kind.Document? then project + "/" + id else id
  }

  function RowKey(e: Entity, project: string, derive: Derive, g: nat): (Kind, string) {
    (e.kind, RowId(e, project, derive(e.kind, e.source, g)))
  }

  function OriginOf(e: Entity, g: nat): Origin { Origin(e.kind, e.source, g) }

  datatype Occupant = Vacant | SameImport | AnotherRow | OtherKey

  function Inspect(store: Store, key: (Kind, string), origin: Option<Origin>): Occupant {
    if key !in store then Vacant
    else if !store[key].readable then OtherKey
    else if origin.Some? && store[key].origin == origin then SameImport
    else AnotherRow
  }

  /**
   What becomes of a write to a vacant row: it is answered; its answer is lost, or a retry
   is refused, though it landed; it lands later; it does not land; or another row gets
   there first.
   */
  datatype Push = Answered | LostLanded | Repeated | LandsLate | NotLanded | Raced(row: Row)

  /** What the store answers about one generation of an entity. */
  datatype Answer = Answer(readFails: bool, buildFails: bool, push: Push, rereadFails: bool)

  datatype Outcome = StoredNow(id: string) | StoredBefore(id: string) | Failed

  /**
   What became of an entity: the store it left, the writes it made, and whether a row of
   its own landed as it wrote, even one the run was not told of.
   */
  datatype Try = Try(store: Store, outcome: Outcome, pushes: nat, landed: bool)

  /** The generations of an entity from g on. */
  function Tried(store: Store, e: Entity, project: string, derive: Derive, g: nat, answers: nat -> Answer): Try
    decreases MAX_GENERATIONS - g
  {
    if g >= MAX_GENERATIONS then Try(store, Failed, 0, false)
    else
      var id, key, a := derive(e.kind, e.source, g), RowKey(e, project, derive, g), answers(g);
      var holder := Inspect(store, key, Some(OriginOf(e, g)));
      if a.readFails then Try(store, Failed, 0, false)
      else if holder.SameImport? then Try(store, StoredBefore(id), 0, false)
      else if !holder.Vacant? then Tried(store, e, project, derive, g + 1, answers)
      else if a.buildFails then Try(store, Failed, 0, false)
      else
        var written := store[key := Row(Some(OriginOf(e, g)), true)];
        match a.push
        case Answered => Try(written, StoredNow(id), 1, true)
        case LostLanded => Try(written, if a.rereadFails then Failed else StoredNow(id), 1, true)
        case Repeated => Try(written, if a.rereadFails then Failed else StoredBefore(id), 1, true)
        case LandsLate => Try(written, Failed, 1, true)
        case NotLanded => Try(store, Failed, 1, false)
        case Raced(row) =>
          var raced := store[key := row];
          var same := Inspect(raced, key, Some(OriginOf(e, g))).SameImport?;
          if a.rereadFails then Try(raced, Failed, 1, same)
          else if same then Try(raced, StoredBefore(id), 1, true)
          else
            var r := Tried(raced, e, project, derive, g + 1, answers);
            r.(pushes := r.pushes + 1)
  }

  function TrimPrefix(s: string, prefix: string): string { if prefix <= s then s[|prefix|..] else s }

  /** Whether a row found at the source id counts as the entity. */
  predicate MayBeHeld(e: Entity, project: string) { !e.kind.Document? || project == e.project }

  function HeldId(e: Entity, project: string): string {
    if e.kind.Document? then TrimPrefix(e.source, project + "/") else e.source
  }

  function Restored(store: Store, held: set<string>, e: Entity, project: string, derive: Derive, heldFails: bool, answers: nat -> Answer): Try {
    if e.source in held && MayBeHeld(e, project) && heldFails then Try(store, Failed, 0, false)
    else if e.source in held && MayBeHeld(e, project) && Inspect(store, (e.kind, e.source), None).AnotherRow?
    then Try(store, StoredBefore(HeldId(e, project)), 0, false)
    else Tried(store, e, project, derive, 0, answers)
  }

  method Restore(store: Store, held: set<string>, e: Entity, project: string, derive: Derive, heldFails: bool, answers: nat -> Answer)
    returns (r: Try)
    ensures r == Restored(store, held, e, project, derive, heldFails, answers)
  {
    hide Inspect, MayBeHeld, HeldId, Tried;
    if e.source in held && MayBeHeld(e, project) {
      if heldFails { return Try(store, Failed, 0, false); }
      if Inspect(store, (e.kind, e.source), None).AnotherRow? {
        return Try(store, StoredBefore(HeldId(e, project)), 0, false);
      }
    }
    var now, pushes := store, 0;
    ghost var all := Tried(store, e, project, derive, 0, answers);
    for g := 0 to MAX_GENERATIONS
      invariant Later(Tried(now, e, project, derive, g, answers), pushes) == all
    {
      var done;
      done, r, now, pushes := TryGeneration(now, e, project, derive, g, answers, pushes);
      if done { return; }
    }
    assert Tried(now, e, project, derive, MAX_GENERATIONS, answers) == Try(now, Failed, 0, false) by { NoneLeft(now, e, project, derive, answers); }
    return Try(now, Failed, pushes, false);
  }

  lemma NoneLeft(store: Store, e: Entity, project: string, derive: Derive, answers: nat -> Answer)
    ensures Tried(store, e, project, derive, MAX_GENERATIONS, answers) == Try(store, Failed, 0, false)
  {}

  /** A try after so many writes. */
  function Later(r: Try, pushes: nat): Try { r.(pushes := r.pushes + pushes) }

  /** One generation: the entity's end, or the store the next is tried in. */
  method TryGeneration(store: Store, e: Entity, project: string, derive: Derive, g: nat, answers: nat -> Answer, pushes: nat)
    returns (done: bool, r: Try, now: Store, more: nat)
    requires g < MAX_GENERATIONS
    ensures var all := Later(Tried(store, e, project, derive, g, answers), pushes);
            if done then r == all else Later(Tried(now, e, project, derive, g + 1, answers), more) == all
  {
    hide RowKey, OriginOf, Inspect;
    var id, key, a := derive(e.kind, e.source, g), RowKey(e, project, derive, g), answers(g);
    var origin := Some(OriginOf(e, g));
    done, r, now, more := true, Try(store, Failed, pushes, false), store, pushes;
    if a.readFails { return; }
    var holder := Inspect(store, key, origin);
    if holder.SameImport? {
      r := Try(store, StoredBefore(id), pushes, false);
      return;
    }
    if !holder.Vacant? {
      done := false;
      return;
    }
    if a.buildFails { return; }
    PushSeen(store, key, origin, a.push);
    now, more := Pushed(store, key, origin, a.push), pushes + 1;
    var landed := Inspect(now, key, origin).SameImport?;
    if a.push.Answered? {
      r := Try(now, StoredNow(id), more, landed);
      return;
    }
    // The row read back settles what became of the write.
    r := Try(now, Failed, more, landed);
    if a.rereadFails { return; }
    var conflicted := a.push.Repeated? || a.push.Raced?;
    if Inspect(if a.push.LandsLate? then store else now, key, origin).SameImport? {
      r := Try(now, if conflicted then StoredBefore(id) else StoredNow(id), more, landed);
    } else if conflicted {
      done := false;
    }
  }

  /** The store a write leaves. */
  function Pushed(store: Store, key: (Kind, string), origin: Option<Origin>, push: Push): Store {
    if push.NotLanded? then store else store[key := if push.Raced? then push.row else Row(origin, true)]
  }

  /** What a read after a write finds, if the write landed. */
  lemma PushSeen(store: Store, key: (Kind, string), origin: Option<Origin>, push: Push)
    requires Inspect(store, key, origin).Vacant? && origin.Some?
    ensures push.NotLanded? ==> Inspect(Pushed(store, key, origin, push), key, origin).Vacant?
    ensures !push.NotLanded? && !push.Raced? ==> Inspect(Pushed(store, key, origin, push), key, origin).SameImport?
  {}

  // ---- An entity once stored ----

  /** The entity is found under id whatever its reads answer: by its own id, or by the first of its generations that is its row. */
  ghost predicate Settled(store: Store, e: Entity, project: string, derive: Derive, id: string) {
    if HeldReadable(store, e, project) then id == HeldId(e, project)
    else exists g: nat :: SettledAt(store, e, project, derive, g) && id == derive(e.kind, e.source, g)
  }

  ghost predicate IsSettled(store: Store, e: Entity, project: string, derive: Derive) {
    exists id :: Settled(store, e, project, derive, id)
  }

  ghost predicate HeldReadable(store: Store, e: Entity, project: string) {
    MayBeHeld(e, project) && Inspect(store, (e.kind, e.source), None).AnotherRow?
  }

  /** Every generation before g is another's row, and g is the entity's. */
  ghost predicate SettledAt(store: Store, e: Entity, project: string, derive: Derive, g: nat) {
    && g < MAX_GENERATIONS
    && (forall h: nat :: h < g ==> IsAnother(store, e, project, derive, h))
    && Inspect(store, RowKey(e, project, derive, g), Some(OriginOf(e, g))).SameImport?
  }

  ghost predicate IsAnother(store: Store, e: Entity, project: string, derive: Derive, h: nat) {
    var o := Inspect(store, RowKey(e, project, derive, h), Some(OriginOf(e, h)));
    o.AnotherRow? || o.OtherKey?
  }

  /** Rows stay as they are once stored, and new ones are at derived ids. */
  ghost predicate Grows(s: Store, t: Store, entities: seq<Entity>) {
    && (forall k :: k in s ==> k in t && t[k] == s[k])
    && (forall i :: 0 <= i < |entities| && (entities[i].kind, entities[i].source) in t ==> (entities[i].kind, entities[i].source) in s)
  }

  /** No derived id is the source id of an entity of its kind. */
  ghost predicate NoClash(entities: seq<Entity>, derive: Derive) {
    forall i, j, project: string, g: nat :: 0 <= i < |entities| && 0 <= j < |entities| && entities[i].kind == entities[j].kind ==>
      RowKey(entities[i], project, derive, g) != (entities[j].kind, entities[j].source)
  }

  lemma VacantGrows(store: Store, e: Entity, project: string, derive: Derive, g: nat, entities: seq<Entity>, row: Row)
    requires NoClash(entities, derive) && e in entities && RowKey(e, project, derive, g) !in store
    ensures Grows(store, store[RowKey(e, project, derive, g) := row], entities)
  {
    hide RowKey;
    var i :| 0 <= i < |entities| && entities[i] == e;
    KeyKind(e, project, derive, g);
  }

  lemma KeyKind(e: Entity, project: string, derive: Derive, g: nat)
    ensures RowKey(e, project, derive, g).0 == e.kind
  {}

  lemma GrowsOn(s: Store, t: Store, u: Store, entities: seq<Entity>)
    requires Grows(s, t, entities) && Grows(t, u, entities)
    ensures Grows(s, u, entities)
  {}

  lemma {:induction false} TriedGrows(store: Store, e: Entity, project: string, derive: Derive, g: nat, answers: nat -> Answer, entities: seq<Entity>)
    requires NoClash(entities, derive) && e in entities
    ensures Grows(store, Tried(store, e, project, derive, g, answers).store, entities)
    decreases MAX_GENERATIONS - g
  {
    if g < MAX_GENERATIONS {
      var i :| 0 <= i < |entities| && entities[i] == e;
      var key := RowKey(e, project, derive, g);
      TriedGrows(store, e, project, derive, g + 1, answers, entities);
      if key !in store {
        VacantGrows(store, e, project, derive, g, entities, Row(Some(OriginOf(e, g)), true));
        if answers(g).push.Raced? {
          var raced := store[key := answers(g).push.row];
          VacantGrows(store, e, project, derive, g, entities, answers(g).push.row);
          TriedGrows(raced, e, project, derive, g + 1, answers, entities);
          GrowsOn(store, raced, Tried(raced, e, project, derive, g + 1, answers).store, entities);
        }
      }
    }
  }

  lemma {:induction false} TriedSettles(store: Store, e: Entity, project: string, derive: Derive, g: nat, answers: nat -> Answer)
    requires forall h: nat :: h < g ==> IsAnother(store, e, project, derive, h)
    requires var r := Tried(store, e, project, derive, g, answers); !r.outcome.Failed? || r.landed
    ensures var r := Tried(store, e, project, derive, g, answers);
            exists k: nat :: SettledAt(r.store, e, project, derive, k) && (!r.outcome.Failed? ==> r.outcome.id == derive(e.kind, e.source, k))
    decreases MAX_GENERATIONS - g
  {
    hide RowKey, IsAnother;
    var r, key := Tried(store, e, project, derive, g, answers), RowKey(e, project, derive, g);
    var holder := Inspect(store, key, Some(OriginOf(e, g)));
    if holder.SameImport? {
      assert SettledAt(r.store, e, project, derive, g);
    } else if !holder.Vacant? {
      assert IsAnother(store, e, project, derive, g) by { Occupied(store, e, project, derive, g); }
      TriedSettles(store, e, project, derive, g + 1, answers);
    } else if answers(g).push.Raced? {
      var raced := store[key := answers(g).push.row];
      AnotherStays(store, raced, e, project, derive, g, answers(g).push.row);
      if Inspect(raced, key, Some(OriginOf(e, g))).SameImport? {
        assert SettledAt(raced, e, project, derive, g);
      } else {
        assert IsAnother(raced, e, project, derive, g) by { Occupied(raced, e, project, derive, g); }
        TriedSettles(raced, e, project, derive, g + 1, answers);
      }
    } else {
      AnotherStays(store, r.store, e, project, derive, g, Row(Some(OriginOf(e, g)), true));
      assert SettledAt(r.store, e, project, derive, g);
    }
  }

  lemma Occupied(store: Store, e: Entity, project: string, derive: Derive, g: nat)
    requires var o := Inspect(store, RowKey(e, project, derive, g), Some(OriginOf(e, g))); !o.Vacant? && !o.SameImport?
    ensures IsAnother(store, e, project, derive, g)
  {}

  /** A row stored where there was none leaves the generations before it as they were. */
  lemma AnotherStays(store: Store, t: Store, e: Entity, project: string, derive: Derive, g: nat, row: Row)
    requires forall h: nat :: h < g ==> IsAnother(store, e, project, derive, h)
    requires RowKey(e, project, derive, g) !in store && t == store[RowKey(e, project, derive, g) := row]
    ensures forall h: nat :: h < g ==> IsAnother(t, e, project, derive, h)
  {
    forall h: nat | h < g ensures IsAnother(t, e, project, derive, h) {
      assert IsAnother(store, e, project, derive, h);
    }
  }

  /** Without a row of its own landed, an entity's try adds no row but those of other writers that got there first. */
  lemma {:induction false} UnlandedAddsNothing(store: Store, e: Entity, project: string, derive: Derive, g: nat, answers: nat -> Answer, key: (Kind, string))
    requires var r := Tried(store, e, project, derive, g, answers); !r.landed && key in r.store && key !in store
    ensures exists h: nat :: answers(h).push == Raced(Tried(store, e, project, derive, g, answers).store[key])
    decreases MAX_GENERATIONS - g
  {
    hide RowKey, OriginOf;
    var at := RowKey(e, project, derive, g);
    if at !in store && answers(g).push.Raced? {
      var raced := store[at := answers(g).push.row];
      if key == at {
        TriedKeeps(raced, e, project, derive, g + 1, answers, at);
        assert answers(g).push == Raced(Tried(store, e, project, derive, g, answers).store[key]);
      } else {
        UnlandedAddsNothing(raced, e, project, derive, g + 1, answers, key);
      }
    } else {
      UnlandedAddsNothing(store, e, project, derive, g + 1, answers, key);
    }
  }

  lemma {:induction false} TriedKeeps(store: Store, e: Entity, project: string, derive: Derive, g: nat, answers: nat -> Answer, key: (Kind, string))
    requires key in store
    ensures var r := Tried(store, e, project, derive, g, answers); key in r.store && r.store[key] == store[key]
    decreases MAX_GENERATIONS - g
  {
    hide RowKey, OriginOf;
    if g < MAX_GENERATIONS {
      TriedKeeps(store, e, project, derive, g + 1, answers, key);
      var at := RowKey(e, project, derive, g);
      if at !in store && answers(g).push.Raced? {
        TriedKeeps(store[at := answers(g).push.row], e, project, derive, g + 1, answers, key);
      }
    }
  }

  lemma {:induction false} SettledTries(store: Store, e: Entity, project: string, derive: Derive, k: nat, g: nat, answers: nat -> Answer)
    requires SettledAt(store, e, project, derive, k) && g <= k
    ensures var r := Tried(store, e, project, derive, g, answers);
            r.pushes == 0 && r.store == store && (r.outcome.Failed? || r.outcome == StoredBefore(derive(e.kind, e.source, k)))
    decreases MAX_GENERATIONS - g
  {
    if g < k {
      assert IsAnother(store, e, project, derive, g);
      SettledTries(store, e, project, derive, k, g + 1, answers);
    }
  }

  /** What the account held as the phase began is what it still holds under source ids. */
  ghost predicate HeldOk(store: Store, held: set<string>, kind: Kind, entities: seq<Entity>) {
    forall i :: 0 <= i < |entities| && entities[i].kind == kind ==> (entities[i].source in held <==> (kind, entities[i].source) in store)
  }

  /** An entity restored is settled, and so is one whose row landed though the run was told it failed. */
  lemma RestoreSettles(store: Store, held: set<string>, e: Entity, project: string, derive: Derive, heldFails: bool, answers: nat -> Answer, entities: seq<Entity>)
    requires NoClash(entities, derive) && e in entities && HeldOk(store, held, e.kind, entities)
    ensures var r := Restored(store, held, e, project, derive, heldFails, answers);
            && Grows(store, r.store, entities)
            && (!r.outcome.Failed? ==> Settled(r.store, e, project, derive, r.outcome.id))
            && (r.landed ==> IsSettled(r.store, e, project, derive))
  {
    var i :| 0 <= i < |entities| && entities[i] == e;
    TriedGrows(store, e, project, derive, 0, answers, entities);
    var r := Restored(store, held, e, project, derive, heldFails, answers);
    if !HeldReadable(store, e, project) && (!r.outcome.Failed? || r.landed) {
      TriedSettles(store, e, project, derive, 0, answers);
      HeldStays(store, r.store, e, project, entities);
      var k: nat :| SettledAt(r.store, e, project, derive, k) && (!r.outcome.Failed? ==> r.outcome.id == derive(e.kind, e.source, k));
      assert Settled(r.store, e, project, derive, derive(e.kind, e.source, k));
    }
  }

  lemma HeldStays(s: Store, t: Store, e: Entity, project: string, entities: seq<Entity>)
    requires Grows(s, t, entities) && e in entities
    ensures HeldReadable(t, e, project) == HeldReadable(s, e, project)
  {
    var i :| 0 <= i < |entities| && entities[i] == e;
  }

  /** A settled entity stays settled as other rows are stored. */
  lemma SettledStays(s: Store, t: Store, e: Entity, project: string, derive: Derive, id: string, entities: seq<Entity>)
    requires Grows(s, t, entities) && e in entities && Settled(s, e, project, derive, id)
    ensures Settled(t, e, project, derive, id)
  {
    HeldStays(s, t, e, project, entities);
    if !HeldReadable(s, e, project) {
      var g: nat :| SettledAt(s, e, project, derive, g) && id == derive(e.kind, e.source, g);
      forall h: nat | h < g ensures IsAnother(t, e, project, derive, h) { assert IsAnother(s, e, project, derive, h); }
      assert SettledAt(t, e, project, derive, g);
    }
  }

  /** A settled entity is found again, with no write, or its read fails. */
  lemma SettledIsFound(store: Store, held: set<string>, e: Entity, project: string, derive: Derive, heldFails: bool, answers: nat -> Answer, entities: seq<Entity>, id: string)
    requires e in entities && HeldOk(store, held, e.kind, entities) && Settled(store, e, project, derive, id)
    ensures var r := Restored(store, held, e, project, derive, heldFails, answers);
            r.pushes == 0 && r.store == store && (r.outcome.Failed? || r.outcome == StoredBefore(id))
  {
    var i :| 0 <= i < |entities| && entities[i] == e;
    if !HeldReadable(store, e, project) {
      var g: nat :| SettledAt(store, e, project, derive, g) && id == derive(e.kind, e.source, g);
      SettledTries(store, e, project, derive, g, 0, answers);
    }
  }

  /** An entity is settled under one id. */
  lemma SettledOnce(store: Store, e: Entity, project: string, derive: Derive, a: string, b: string)
    requires Settled(store, e, project, derive, a) && Settled(store, e, project, derive, b)
    ensures a == b
  {
    if !HeldReadable(store, e, project) {
      var g: nat :| SettledAt(store, e, project, derive, g) && a == derive(e.kind, e.source, g);
      var h: nat :| SettledAt(store, e, project, derive, h) && b == derive(e.kind, e.source, h);
      NotEarlier(store, e, project, derive, g, h);
      NotEarlier(store, e, project, derive, h, g);
    }
  }

  lemma NotEarlier(store: Store, e: Entity, project: string, derive: Derive, g: nat, h: nat)
    requires SettledAt(store, e, project, derive, g) && SettledAt(store, e, project, derive, h)
    ensures g >= h
  {
    assert g < h ==> IsAnother(store, e, project, derive, g);
  }
}
