/**
 A native backup as it is written (internal/archives/backup.go, export.go) and as a
 restore checks it (internal/archives/restore.go): every backup written without an
 error is accepted, with the counts it was written with. An entry's JSON is its value
 and its size, which a parameter gives; so is its hash.
 */
module Backup {
  import opened BackupPaths

  const MAX_ENTRIES: nat := 50_000
  const MAX_EXPANSION: nat := 0x8000_0000
  const MAX_JSON_ENTRY: nat := 0x1000_0000
  const MAX_IMAGE: nat := 0x210_0000
  const MAX_MANIFEST: nat := 0x200_0000
  const VERSION: nat := 3

  datatype Counts = Counts(projects: nat, documents: nat, cloudChats: nat, localChats: nat, relationships: nat, images: nat, files: nat)

  const NONE := Counts(0, 0, 0, 0, 0, 0, 0)

  /** An entry as the manifest lists it. */
  datatype Listed = Listed(path: string, kind: string, hash: nat, size: nat)

  datatype Manifest = Manifest(native: bool, version: int, complete: bool, counts: Counts, files: seq<Listed>)

  /** What an entry holds. */
  datatype Body =
    | Bytes(content: nat)
    | Row(id: Id, content: nat)
    | ImageMeta(id: Id, chat: Id, content: nat)
    | Relationships(count: nat)
    | ManifestBody(manifest: Manifest)

  datatype Data = Data(body: Body, size: nat)

  datatype Entry = Entry(name: string, data: Data)

  function Limit(name: string): nat { if Ext(name) == ".bin" then MAX_IMAGE else MAX_JSON_ENTRY }

  function Sizes(files: seq<Entry>): nat {
    if files == [] then 0 else Sizes(files[..|files| - 1]) + files[|files| - 1].data.size
  }

  function Indexed(files: seq<Entry>): map<string, Data> {
    if files == [] then map[] else Indexed(files[..|files| - 1])[files[|files| - 1].name := files[|files| - 1].data]
  }

  // ---- What a restore checks ----

  /** The entry at j is one a backup may hold, not held before, and within the limits. */
  ghost predicate EntryFine(files: seq<Entry>, j: nat)
    requires j < |files|
  {
    var f := files[j];
    && Safe(f.name) && Allowed(f.name) && (forall k :: 0 <= k < j ==> files[k].name != f.name)
    && f.data.size <= Limit(f.name) && Sizes(files[..j + 1]) <= MAX_EXPANSION
  }

  /** An image's description names it and sits beside its bytes. */
  ghost predicate ImageFine(entries: map<string, Data>, path: string)
    requires path in entries
  {
    && entries[path].body.ImageMeta?
    && var id := entries[path].body.id;
       id != [] && ImagePath(id, ".json") == path && ImagePath(id, ".bin") in entries
  }

  ghost predicate ListedFine(files: seq<Listed>, j: nat, entries: map<string, Data>, hash: Data -> nat)
    requires j < |files|
  {
    var f := files[j];
    && f.path in entries && (forall k :: 0 <= k < j ==> files[k].path != f.path) && f.path != MANIFEST
    && Kind(f.path) == f.kind && entries[f.path].size == f.size && hash(entries[f.path]) == f.hash
    && (f.kind == "images" && Ext(f.path) == ".json" ==> ImageFine(entries, f.path))
    && (f.kind == "relationships" ==> entries[f.path].body.Relationships?)
  }

  /** What listed entries add up to. */
  function Tally(files: seq<Listed>, entries: map<string, Data>): Counts {
    if files == [] then NONE
    else
      var c, f := Tally(files[..|files| - 1], entries), files[|files| - 1];
      Tallied(c, f, if f.path in entries && entries[f.path].body.Relationships? then entries[f.path].body.count else 0)
  }

  function Tallied(c: Counts, f: Listed, links: nat): Counts {
    if f.kind == "projects" then c.(projects := c.projects + 1)
    else if f.kind == "project_documents" then c.(documents := c.documents + 1)
    else if f.kind == "cloud_chats" then c.(cloudChats := c.cloudChats + 1)
    else if f.kind == "local_chats" then c.(localChats := c.localChats + 1)
    else if f.kind == "images" then if Ext(f.path) == ".json" then c.(images := c.images + 1) else c
    else if f.kind == "relationships" then c.(relationships := links)
    else c
  }

  /** Names itself a native backup: its last manifest entry reads as one. */
  ghost predicate IsNative(files: seq<Entry>, m: Manifest) {
    exists j :: IsManifestAt(files, j, m)
  }

  ghost predicate IsManifestAt(files: seq<Entry>, j: int, m: Manifest) {
    && 0 <= j < |files| && files[j].name == MANIFEST && (forall k :: j < k < |files| ==> files[k].name != MANIFEST)
    && files[j].data.size <= MAX_MANIFEST && files[j].data.body == ManifestBody(m) && m.native
  }

  ghost predicate EntriesFine(files: seq<Entry>) { forall j :: 0 <= j < |files| ==> EntryFine(files, j) }

  ghost predicate FilesFine(files: seq<Listed>, entries: map<string, Data>, hash: Data -> nat) {
    forall j :: 0 <= j < |files| ==> ListedFine(files, j, entries, hash)
  }

  ghost predicate Accepted(files: seq<Entry>, m: Manifest, hash: Data -> nat) {
    var entries := Indexed(files);
    && IsNative(files, m) && EntriesFine(files) && 1 <= m.version <= VERSION
    && FilesFine(m.files, entries, hash)
    && |m.files| + 1 == |files|
    && Tally(m.files, entries).(files := |m.files|) == m.counts
  }

  datatype Outcome = Opened(manifest: Manifest) | NotABackup | Invalid | TooLarge

  lemma IndexedMore(files: seq<Entry>, j: nat)
    requires j < |files|
    ensures Indexed(files[..j + 1]) == Indexed(files[..j])[files[j].name := files[j].data]
    ensures Sizes(files[..j + 1]) == Sizes(files[..j]) + files[j].data.size
  {
    assert files[..j + 1][..j] == files[..j];
  }

  lemma {:induction false} IndexedKeys(files: seq<Entry>)
    ensures forall name :: name in Indexed(files) ==> exists j :: 0 <= j < |files| && files[j].name == name
    ensures forall j :: 0 <= j < |files| ==> files[j].name in Indexed(files)
  {
    if files != [] {
      var n := |files| - 1;
      var rest := files[..n];
      IndexedKeys(rest);
      forall name | name in Indexed(files) ensures exists j :: 0 <= j < |files| && files[j].name == name {
        if name == files[n].name {
          assert files[n].name == name;
        } else {
          assert name in Indexed(rest);
          var j :| 0 <= j < |rest| && rest[j].name == name;
          assert files[j].name == name;
        }
      }
      forall j | 0 <= j < |files| ensures files[j].name in Indexed(files) {
        if j < n { assert rest[j].name in Indexed(rest); }
      }
    }
  }

  lemma KeysMore(m: map<string, Data>, k: string, v: Data)
    ensures |m[k := v]| == if k in m then |m| else |m| + 1
  {
    var m' := m[k := v];
    if k in m { assert m'.Keys == m.Keys; } else { assert m'.Keys == m.Keys + {k}; }
    assert |m'| == |m'.Keys| && |m| == |m.Keys|;
  }

  lemma {:induction false} IndexedSize(files: seq<Entry>)
    requires forall j, k :: 0 <= k < j < |files| ==> files[k].name != files[j].name
    ensures |Indexed(files)| == |files|
  {
    if files != [] {
      var n := |files| - 1;
      IndexedSize(files[..n]);
      IndexedKeys(files[..n]);
      KeysMore(Indexed(files[..n]), files[n].name, files[n].data);
    }
  }

  // ---- The restore's check ----

  method FindManifest(files: seq<Entry>) returns (at: int)
    ensures -1 <= at < |files|
    ensures at >= 0 ==> files[at].name == MANIFEST
    ensures forall k :: at < k < |files| ==> files[k].name != MANIFEST
  {
    at := -1;
    for i := 0 to |files|
      invariant -1 <= at < i && (at >= 0 ==> files[at].name == MANIFEST)
      invariant forall k :: at < k < i ==> files[k].name != MANIFEST
    {
      if files[i].name == MANIFEST { at := i; }
    }
  }

  /** Checks the entries one by one. */
  method CheckEntries(files: seq<Entry>) returns (r: Outcome, entries: map<string, Data>)
    ensures r.NotABackup? <==> EntriesFine(files)
    ensures r.NotABackup? ==> entries == Indexed(files)
    ensures !r.Opened?
  {
    hide Allowed, Safe, Limit;
    entries := map[];
    var expanded := 0;
    for i := 0 to |files|
      invariant entries == Indexed(files[..i]) && expanded == Sizes(files[..i])
      invariant forall j :: 0 <= j < i ==> EntryFine(files, j)
    {
      IndexedMore(files, i);
      HeldBefore(files, i);
      var f := files[i];
      if !Safe(f.name) || !Allowed(f.name) || f.name in entries {
        assert !EntryFine(files, i);
        return Invalid, entries;
      }
      expanded := expanded + f.data.size;
      if f.data.size > Limit(f.name) || expanded > MAX_EXPANSION {
        assert !EntryFine(files, i);
        return TooLarge, entries;
      }
      entries := entries[f.name := f.data];
    }
    assert files[..|files|] == files;
    return NotABackup, entries;
  }

  lemma HeldBefore(files: seq<Entry>, i: nat)
    requires i < |files|
    ensures files[i].name in Indexed(files[..i]) <==> exists k :: 0 <= k < i && files[k].name == files[i].name
  {
    var rest := files[..i];
    IndexedKeys(rest);
    if k :| 0 <= k < i && files[k].name == files[i].name { assert rest[k].name == files[i].name; }
    if files[i].name in Indexed(rest) {
      var j :| 0 <= j < |rest| && rest[j].name == files[i].name;
      assert files[j].name == files[i].name;
    }
  }

  /** Checks what the manifest lists against the entries, and counts it. */
  method CheckListed(files: seq<Listed>, entries: map<string, Data>, hash: Data -> nat) returns (ok: bool, counts: Counts)
    ensures ok <==> FilesFine(files, entries, hash)
    ensures ok ==> counts == Tally(files, entries).(files := |files|)
  {
    hide Ext, Kind, ImagePath, Tallied;
    counts := NONE;
    var listed: set<string> := {};
    for i := 0 to |files|
      invariant forall j :: 0 <= j < i ==> ListedFine(files, j, entries, hash)
      invariant listed == PathsOf(files[..i]) && counts == Tally(files[..i], entries)
    {
      var f := files[i];
      ListedBefore(files, i);
      assert files[..i + 1][..i] == files[..i];
      if f.path !in entries || f.path in listed || f.path == MANIFEST || Kind(f.path) != f.kind || entries[f.path].size != f.size {
        assert !ListedFine(files, i, entries, hash);
        return false, counts;
      }
      listed := listed + {f.path};
      if hash(entries[f.path]) != f.hash {
        assert !ListedFine(files, i, entries, hash);
        return false, counts;
      }
      var body := entries[f.path].body;
      if f.kind == "images" && Ext(f.path) == ".json" {
        if !body.ImageMeta? || body.id == [] || ImagePath(body.id, ".json") != f.path || ImagePath(body.id, ".bin") !in entries {
          assert !ListedFine(files, i, entries, hash);
          return false, counts;
        }
      }
      if f.kind == "relationships" && !body.Relationships? {
        assert !ListedFine(files, i, entries, hash);
        return false, counts;
      }
      counts := Tallied(counts, f, if body.Relationships? then body.count else 0);
    }
    assert files[..|files|] == files;
    counts := counts.(files := |files|);
    ok := true;
  }

  function PathsOf(files: seq<Listed>): set<string> { set j | 0 <= j < |files| :: files[j].path }

  lemma ListedBefore(files: seq<Listed>, i: nat)
    requires i < |files|
    ensures files[i].path in PathsOf(files[..i]) <==> exists k :: 0 <= k < i && files[k].path == files[i].path
    ensures PathsOf(files[..i + 1]) == PathsOf(files[..i]) + {files[i].path}
  {
    var a, b := files[..i + 1], files[..i];
    forall p ensures p in PathsOf(a) <==> p in PathsOf(b) + {files[i].path} {
      if p in PathsOf(b) {
        var j :| 0 <= j < |b| && b[j].path == p;
        assert a[j].path == p;
      }
      if p == files[i].path { assert a[i].path == p; }
    }
    if k :| 0 <= k < i && files[k].path == files[i].path { assert b[k].path == files[i].path; }
  }

  method OpenNativeBackup(files: seq<Entry>, hash: Data -> nat) returns (r: Outcome)
    ensures r.Opened? ==> Accepted(files, r.manifest, hash)
    ensures forall m :: Accepted(files, m, hash) ==> r == Opened(m)
  {
    hide EntriesFine, FilesFine, Tally, Allowed;
    var at := FindManifest(files);
    if at < 0 { return NotABackup; }
    var data := files[at].data;
    forall m, j | IsManifestAt(files, j, m) ensures j == at && data.body == ManifestBody(m) {}
    if data.size > MAX_MANIFEST || !data.body.ManifestBody? || !data.body.manifest.native { return NotABackup; }
    var m := data.body.manifest;
    assert IsManifestAt(files, at, m);
    var checked, entries := CheckEntries(files);
    if !checked.NotABackup? { return checked; }
    if m.version < 1 || m.version > VERSION { return Invalid; }
    var ok, counts := CheckListed(m.files, entries, hash);
    if !ok { return Invalid; }
    ListedAndHeld(files);
    if |m.files| + 1 != |entries| { return Invalid; }
    if counts != m.counts { return Invalid; }
    return Opened(m);
  }

  lemma ListedAndHeld(files: seq<Entry>)
    requires EntriesFine(files)
    ensures |Indexed(files)| == |files|
  {
    hide Safe, Allowed, Limit;
    forall j, k | 0 <= k < j < |files| ensures files[k].name != files[j].name { assert EntryFine(files, j); }
    IndexedSize(files);
  }
}
