/**
 Writing a native backup (internal/archives/backup.go and writeBackup and backupChat of
 internal/archives/export.go), against what a restore checks.
 */
module BackupWriting {
  import opened Options
  import opened BackupPaths
  import opened Backup

  // ---- What is written so far ----

  ghost predicate Unique(zip: seq<Entry>) {
    forall j, k :: 0 <= k < j < |zip| ==> zip[k].name != zip[j].name
  }

  /** The manifest lists each entry as it is. */
  ghost predicate Recorded(zip: seq<Entry>, files: seq<Listed>, hash: Data -> nat) {
    && |files| == |zip|
    && forall i :: 0 <= i < |zip| ==>
         files[i].path == zip[i].name && files[i].size == zip[i].data.size && files[i].hash == hash(zip[i].data)
  }

  ghost predicate Limited(zip: seq<Entry>) {
    Sizes(zip) <= MAX_EXPANSION && forall i :: 0 <= i < |zip| ==> zip[i].data.size <= Limit(zip[i].name)
  }

  /** Entries that fit in a backup beside its manifest: no name twice, none past its limit, and not too many or too large together. */
  ghost predicate Writable(zip: seq<Entry>) { Unique(zip) && Limited(zip) && |zip| < MAX_ENTRIES }

  function Names(zip: seq<Entry>): set<string> { set i | 0 <= i < |zip| :: zip[i].name }

  /** An entry is named as its kind is, and holds what its kind holds. */
  ghost predicate ProperEntry(e: Entry, kind: string, names: set<string>) {
    && Allowed(e.name) && Safe(e.name) && e.name != MANIFEST && Kind(e.name) == kind
    && (kind == "images" && Ext(e.name) == ".json" ==>
          e.data.body.ImageMeta? && var id := e.data.body.id;
          id != [] && ImagePath(id, ".json") == e.name && ImagePath(id, ".bin") in names)
    && (kind == "relationships" ==> e.data.body.Relationships?)
  }

  ghost predicate Proper(zip: seq<Entry>, files: seq<Listed>, names: set<string>) {
    |files| == |zip| && forall i :: 0 <= i < |zip| ==> ProperEntry(zip[i], files[i].kind, names)
  }

  lemma {:induction false} IndexedAt(zip: seq<Entry>, i: nat)
    requires Unique(zip) && i < |zip|
    ensures zip[i].name in Indexed(zip) && Indexed(zip)[zip[i].name] == zip[i].data
  {
    var n := |zip| - 1;
    if i < n {
      assert zip[..n][i] == zip[i];
      IndexedAt(zip[..n], i);
    }
  }

  lemma {:induction false} TallySame(files: seq<Listed>, a: map<string, Data>, b: map<string, Data>)
    requires forall i :: 0 <= i < |files| ==> files[i].path in a && files[i].path in b && a[files[i].path] == b[files[i].path]
    ensures Tally(files, a) == Tally(files, b)
  {
    if files != [] { TallySame(files[..|files| - 1], a, b); }
  }

  /** Adding an entry leaves what the others add up to. */
  lemma TallyMore(zip: seq<Entry>, files: seq<Listed>, e: Entry, f: Listed, hash: Data -> nat)
    requires Unique(zip + [e]) && Recorded(zip, files, hash) && f.path == e.name
    ensures Tally(files + [f], Indexed(zip + [e])) ==
            Tallied(Tally(files, Indexed(zip)), f, if e.data.body.Relationships? then e.data.body.count else 0)
  {
    hide Tallied;
    var zip' := zip + [e];
    assert zip'[..|zip|] == zip && (files + [f])[..|files|] == files;
    forall i | 0 <= i < |files|
      ensures files[i].path in Indexed(zip) && files[i].path in Indexed(zip') && Indexed(zip)[files[i].path] == Indexed(zip')[files[i].path]
    {
      assert zip'[i] == zip[i];
      UniqueLess(zip, e);
      IndexedAt(zip, i);
      IndexedAt(zip', i);
    }
    TallySame(files, Indexed(zip), Indexed(zip'));
    IndexedAt(zip', |zip|);
  }

  lemma RecordedLess(zip: seq<Entry>, files: seq<Listed>, e: Entry, f: Listed, hash: Data -> nat)
    requires Recorded(zip + [e], files + [f], hash)
    ensures Recorded(zip, files, hash)
  {
    forall i | 0 <= i < |zip|
      ensures files[i].path == zip[i].name && files[i].size == zip[i].data.size && files[i].hash == hash(zip[i].data)
    {
      assert (zip + [e])[i] == zip[i] && (files + [f])[i] == files[i];
    }
  }

  lemma UniqueLess(zip: seq<Entry>, e: Entry)
    requires Unique(zip + [e])
    ensures Unique(zip)
  {
    forall j, k | 0 <= k < j < |zip| ensures zip[k].name != zip[j].name {
      assert (zip + [e])[k] == zip[k] && (zip + [e])[j] == zip[j];
    }
  }

  // ---- What a finished backup is ----

  lemma {:induction false} SizesPrefix(files: seq<Entry>, j: nat)
    requires j <= |files|
    ensures Sizes(files[..j]) <= Sizes(files)
  {
    if j < |files| {
      var n := |files| - 1;
      SizesPrefix(files[..n], j);
      assert files[..n][..j] == files[..j];
    } else {
      assert files[..j] == files;
    }
  }

  /** Entries that are properly named and recorded, with their manifest last, are a backup a restore accepts. */
  lemma FinishedIsAccepted(zip: seq<Entry>, files: seq<Listed>, counts: Counts, hash: Data -> nat, complete: bool, size: nat)
    requires Unique(zip) && Recorded(zip, files, hash) && Limited(zip) && Proper(zip, files, Names(zip))
    requires counts == Tally(files, Indexed(zip)) && size <= MAX_MANIFEST && Sizes(zip) + size <= MAX_EXPANSION
    ensures var m := Manifest(true, VERSION, complete, counts.(files := |files|), files);
            Accepted(zip + [Entry(MANIFEST, Data(ManifestBody(m), size))], m, hash)
  {
    hide Allowed, Safe, Kind, Ext, ImagePath, Tally, Indexed, Limit;
    var m := Manifest(true, VERSION, complete, counts.(files := |files|), files);
    var e := Entry(MANIFEST, Data(ManifestBody(m), size));
    var all := zip + [e];
    FinishedEntries(zip, files, hash, e);
    FinishedListed(zip, files, hash, e);
    assert IsManifestAt(all, |zip|, m);
    var entries := Indexed(all);
    assert Tally(files, entries) == Tally(files, Indexed(zip)) by {
      forall i | 0 <= i < |files|
        ensures files[i].path in Indexed(zip) && files[i].path in entries && Indexed(zip)[files[i].path] == entries[files[i].path]
      {
        assert all[i] == zip[i];
        IndexedAt(zip, i);
        IndexedAt(all, i);
      }
      TallySame(files, Indexed(zip), entries);
    }
  }

  lemma FinishedEntries(zip: seq<Entry>, files: seq<Listed>, hash: Data -> nat, e: Entry)
    requires Unique(zip) && Recorded(zip, files, hash) && Limited(zip) && Proper(zip, files, Names(zip))
    requires e.name == MANIFEST && e.data.size <= MAX_MANIFEST && Sizes(zip) + e.data.size <= MAX_EXPANSION
    ensures EntriesFine(zip + [e]) && Unique(zip + [e])
  {
    hide Allowed, Safe, Kind, Ext, ImagePath;
    var all := zip + [e];
    assert all[..|zip|] == zip && all[..|all|] == all;
    forall i | 0 <= i < |zip| ensures zip[i].name != MANIFEST && Allowed(zip[i].name) && Safe(zip[i].name) {
      assert ProperEntry(zip[i], files[i].kind, Names(zip));
    }
    assert Sizes(all) == Sizes(zip) + e.data.size;
    forall j | 0 <= j < |zip| ensures EntryFine(all, j) {
      hide Sizes;
      SizesPrefix(all, j + 1);
      assert all[j] == zip[j] && forall k :: 0 <= k < j ==> all[k] == zip[k];
    }
    assert EntryFine(all, |zip|) by { ManifestIsSafe(); }
  }

  lemma FinishedListed(zip: seq<Entry>, files: seq<Listed>, hash: Data -> nat, e: Entry)
    requires Unique(zip + [e]) && Recorded(zip, files, hash) && Proper(zip, files, Names(zip))
    ensures FilesFine(files, Indexed(zip + [e]), hash)
  {
    hide Allowed, Safe, Kind, Ext, ImagePath, Indexed;
    var all := zip + [e];
    var entries := Indexed(all);
    forall j | 0 <= j < |files| ensures ListedFine(files, j, entries, hash) {
      assert all[j] == zip[j];
      IndexedAt(all, j);
      assert ProperEntry(zip[j], files[j].kind, Names(zip));
      UniqueLess(zip, e);
      NamesHeld(zip, e);
    }
  }

  lemma NamesHeld(zip: seq<Entry>, e: Entry)
    ensures forall name :: name in Names(zip) ==> name in Indexed(zip + [e])
  {
    hide Indexed;
    IndexedKeys(zip + [e]);
    forall name | name in Names(zip) ensures name in Indexed(zip + [e]) {
      var i :| 0 <= i < |zip| && zip[i].name == name;
      assert (zip + [e])[i].name == name;
    }
  }

  // ---- What there is to back up ----

  /** What reading an image answers. */
  datatype Picture = Gone | Fails | Image(content: nat, size: nat)

  /** An attachment: what reading its document answers, its image, and the images of its pages. */
  datatype Attachment = Attachment(document: Option<Picture>, image: Option<Picture>, pages: seq<Option<Picture>>)

  datatype Chat = Chat(id: Id, project: Option<Id>, content: nat, messages: seq<seq<Attachment>>)

  datatype Document = Document(id: Id, content: nat)

  datatype Project = Project(id: Id, content: nat, documents: seq<Option<Document>>)

  predicate ChatOk(c: Chat) { c.id != [] }

  predicate ProjectOk(p: Project) {
    p.id != [] && forall i :: 0 <= i < |p.documents| && p.documents[i].Some? ==> p.documents[i].value.id != []
  }

  const SLASH: Byte := 47

  function Decimal(n: nat): Id { if n < 10 then [48 + n] else Decimal(n / 10) + [48 + n % 10] }

  function ImageId(chat: Id, message: nat, attachment: nat): Id {
    chat + [SLASH] + Decimal(message) + [SLASH] + Decimal(attachment)
  }

  function PageId(image: Id, page: nat): Id {
    image + [SLASH, 112, 97, 103, 101, SLASH] + Decimal(page)
  }

  // ---- The writer ----

  class Writer {
    const hash: Data -> nat
    const jsonSize: Body -> nat  // the size of a value's JSON
    var zip: seq<Entry>
    var files: seq<Listed>
    var counts: Counts
    var written: set<string>
    var expanded: nat
    var omissions: nat
    var links: nat

    ghost predicate Valid()
      reads this`zip, this`files, this`written, this`expanded
    {
      && Unique(zip) && Recorded(zip, files, hash) && Limited(zip) && written == Names(zip)
      && Sizes(zip) <= expanded && |files| < MAX_ENTRIES
    }

    /** Every entry is proper, and counted. */
    ghost predicate Going()
      reads this`zip, this`files, this`written, this`expanded, this`counts
    {
      Valid() && Proper(zip, files, Names(zip)) && counts == Tally(files, Indexed(zip)) && expanded == Sizes(zip)
    }

    constructor (hash: Data -> nat, jsonSize: Body -> nat)
      ensures Going() && zip == [] && this.hash == hash && this.jsonSize == jsonSize && omissions == 0 && links == 0 && counts == NONE
    {
      this.hash, this.jsonSize := hash, jsonSize;
      zip, files, counts, written, expanded, omissions, links := [], [], NONE, {}, 0, 0, 0;
    }

    function Raw(body: Body): Data { Data(body, jsonSize(body)) }

    // ---- The entries of what is given ----

    function ImageEntries(chat: Id, id: Id, p: Picture): seq<Entry> {
      if p.Image?
      then [Entry(ImagePath(id, ".json"), Raw(ImageMeta(id, chat, p.size))), Entry(ImagePath(id, ".bin"), Data(Bytes(p.content), p.size))]
      else []
    }

    /** The images of an attachment's first n pages. */
    function PageEntries(chat: Id, id: Id, pages: seq<Option<Picture>>, n: nat): seq<Entry>
      requires n <= |pages|
    {
      if n == 0 then []
      else PageEntries(chat, id, pages, n - 1) + if pages[n - 1].Some? then ImageEntries(chat, PageId(id, n - 1), pages[n - 1].value) else []
    }

    /** An attachment's image and its pages'; one whose document or image is gone is left out. */
    function AttachmentEntries(chat: Id, id: Id, a: Attachment): seq<Entry> {
      if a.document == Some(Gone) || a.image == Some(Gone) then []
      else (if a.image.Some? then ImageEntries(chat, id, a.image.value) else []) + PageEntries(chat, id, a.pages, |a.pages|)
    }

    function MessageEntries(chat: Id, i: nat, attachments: seq<Attachment>, n: nat): seq<Entry>
      requires n <= |attachments|
    {
      if n == 0 then []
      else MessageEntries(chat, i, attachments, n - 1) + AttachmentEntries(chat, ImageId(chat, i, n - 1), attachments[n - 1])
    }

    function MessagesEntries(c: Chat, n: nat): seq<Entry>
      requires n <= |c.messages|
    {
      if n == 0 then [] else MessagesEntries(c, n - 1) + MessageEntries(c.id, n - 1, c.messages[n - 1], |c.messages[n - 1]|)
    }

    /** A chat's images, and the chat. */
    function ChatEntries(kind: string, c: Chat): seq<Entry> {
      MessagesEntries(c, |c.messages|) + [Entry(EntityPath(kind, c.id), Raw(Row(c.id, c.content)))]
    }

    function DocumentEntries(p: Project, n: nat): seq<Entry>
      requires n <= |p.documents|
    {
      if n == 0 then []
      else
        DocumentEntries(p, n - 1)
        + if p.documents[n - 1].Some?
          then [Entry(DocumentPath(p.id, p.documents[n - 1].value.id), Raw(Row(p.documents[n - 1].value.id, p.documents[n - 1].value.content)))]
          else []
    }

    function ProjectEntries(p: Project): seq<Entry> {
      [Entry(EntityPath("projects", p.id), Raw(Row(p.id, p.content)))] + DocumentEntries(p, |p.documents|)
    }

    function ProjectsEntries(ps: seq<Option<Project>>, n: nat): seq<Entry>
      requires n <= |ps|
    {
      if n == 0 then [] else ProjectsEntries(ps, n - 1) + if ps[n - 1].Some? then ProjectEntries(ps[n - 1].value) else []
    }

    function CloudEntries(cs: seq<Option<Chat>>, n: nat): seq<Entry>
      requires n <= |cs|
    {
      if n == 0 then [] else CloudEntries(cs, n - 1) + if cs[n - 1].Some? then ChatEntries("cloud_chats", cs[n - 1].value) else []
    }

    /** The device's chats, but for those the cloud holds. */
    function DeviceEntries(cs: seq<Chat>, cloud: set<Id>, n: nat): seq<Entry>
      requires n <= |cs|
    {
      if n == 0 then [] else DeviceEntries(cs, cloud, n - 1) + if cs[n - 1].id in cloud then [] else ChatEntries("local_chats", cs[n - 1])
    }

    /** write: counts the entry, refusing one past its limit or that expands the backup past the limit. */
    method Write(name: string, data: Data, limit: nat) returns (ok: bool)
      modifies this`zip, this`expanded
      ensures expanded == old(expanded) + data.size
      ensures ok == (data.size <= limit && expanded <= MAX_EXPANSION)
      ensures zip == old(zip) + if ok then [Entry(name, data)] else []
    {
      expanded := expanded + data.size;
      if data.size > limit || expanded > MAX_EXPANSION { return false; }
      zip := zip + [Entry(name, data)];
      return true;
    }

    /** Add: writes an entry and lists it, refusing one too many and one held already. */
    method Add(kind: string, name: string, data: Data) returns (ok: bool)
      requires Valid()
      modifies this`zip, this`files, this`written, this`expanded
      ensures Valid()
      ensures ok == (|old(files)| + 1 < MAX_ENTRIES && name !in old(written) && data.size <= Limit(name) && old(expanded) + data.size <= MAX_EXPANSION)
      ensures zip == old(zip) + if ok then [Entry(name, data)] else []
      ensures files == old(files) + if ok then [Listed(name, kind, hash(data), data.size)] else []
      ensures expanded == old(expanded) + data.size || !ok
      ensures old(expanded) == Sizes(old(zip)) ==> (ok <==> Writable(old(zip) + [Entry(name, data)]))
    {
      hide Ext;
      AddedWritable(zip, Entry(name, data));
      if |files| + 1 >= MAX_ENTRIES || name in written { return false; }
      AddedFits(zip, Entry(name, data));
      ok := Write(name, data, Limit(name));
      if !ok {
        assert zip == old(zip);
        return;
      }
      written := written + {name};
      files := files + [Listed(name, kind, hash(data), data.size)];
    }

    /** Adds an entry that is proper and counts it. */
    method AddCounted(kind: string, name: string, data: Data) returns (ok: bool)
      requires Going() && Countable(Entry(name, data), kind)
      modifies this`zip, this`files, this`written, this`expanded, this`counts
      ensures Valid() && (ok ==> Going())
      ensures ok ==> zip == old(zip) + [Entry(name, data)] && counts == Bumped(old(counts), kind)
      ensures ok <==> Writable(old(zip) + [Entry(name, data)])
    {
      hide Tallied, Tally, Indexed, Writable, Valid, Proper, ProperEntry, Sizes, Allowed, Safe, Ext;
      CountableIsProper(Entry(name, data), kind, Names(zip + [Entry(name, data)]));
      ok := AddProper(kind, name, data);
      if !ok { return; }
      BumpedIsTallied(old(counts), Listed(name, kind, hash(data), data.size), name);
      counts := Bumped(counts, kind);
    }

    /** An image's description and its bytes, one beside the other. */
    method AddImage(chat: Id, id: Id, content: nat, size: nat) returns (ok: bool)
      requires Going() && id != []
      modifies this`zip, this`files, this`written, this`expanded, this`counts, this`links
      ensures Valid() && (ok ==> Going())
      ensures ok ==> zip == old(zip) + ImageEntries(chat, id, Image(content, size)) && links == old(links) + 1
      ensures ok ==> counts == old(counts).(images := old(counts).images + 1)
      ensures ok <==> Writable(old(zip) + ImageEntries(chat, id, Image(content, size)))
    {
      hide Tallied, Tally, Indexed, Writable, Limited, Allowed, Safe, Ext, Proper, Unique, Names;
      ghost var z, fs := zip, files;
      var meta := Raw(ImageMeta(id, chat, size));
      var data := Data(Bytes(content), size);
      ghost var e1, e2 := Entry(ImagePath(id, ".json"), meta), Entry(ImagePath(id, ".bin"), data);
      ghost var f1, f2 := Listed(e1.name, "images", hash(meta), meta.size), Listed(e2.name, "images", hash(data), size);
      ok := AddBoth("images", ImagePath(id, ".json"), meta, ImagePath(id, ".bin"), data);
      if !ok { return; }
      counts := counts.(images := counts.images + 1);
      links := links + 1;
      assert zip == z + [e1] + [e2] && files == fs + [f1] + [f2];
      ImageGoes(z, fs, old(counts), e1, f1, e2, f2, id);
    }

    /** Two entries, one after the other. */
    method AddBoth(kind: string, name: string, data: Data, name2: string, data2: Data) returns (ok: bool)
      requires Valid() && expanded == Sizes(zip)
      modifies this`zip, this`files, this`written, this`expanded
      ensures Valid() && (ok ==> expanded == Sizes(zip))
      ensures ok <==> Writable(old(zip) + [Entry(name, data), Entry(name2, data2)])
      ensures ok ==> zip == old(zip) + [Entry(name, data), Entry(name2, data2)]
      ensures ok ==> files == old(files) + [Listed(name, kind, hash(data), data.size), Listed(name2, kind, hash(data2), data2.size)]
    {
      hide Valid, Writable, Sizes;
      ghost var z, e1, e2 := zip, Entry(name, data), Entry(name2, data2);
      AddedFits(z, e1);
      AddedFits(z + [e1], e2);
      StillWritable(z, [e1], [e1, e2]);
      assert z + [e1] + [e2] == z + [e1, e2];
      ok := Add(kind, name, data);
      if !ok { return; }
      ok := Add(kind, name2, data2);
    }

    lemma ImageGoes(z: seq<Entry>, fs: seq<Listed>, c: Counts, e1: Entry, f1: Listed, e2: Entry, f2: Listed, id: Id)
      requires Unique(z + [e1] + [e2]) && Recorded(z, fs, hash) && Recorded(z + [e1] + [e2], fs + [f1] + [f2], hash)
      requires Proper(z, fs, Names(z)) && c == Tally(fs, Indexed(z)) && id != []
      requires e1.name == ImagePath(id, ".json") && e1.data.body.ImageMeta? && e1.data.body.id == id && f1.kind == "images" && f1.path == e1.name
      requires e2.name == ImagePath(id, ".bin") && e2.data.body.Bytes? && f2.kind == "images" && f2.path == e2.name
      ensures Proper(z + [e1] + [e2], fs + [f1] + [f2], Names(z + [e1] + [e2]))
      ensures Tally(fs + [f1] + [f2], Indexed(z + [e1] + [e2])) == c.(images := c.images + 1)
    {
      hide Tallied, Tally, Indexed, Allowed, Safe, Ext, Proper;
      UniqueLess(z + [e1], e2);
      RecordedLess(z + [e1], fs + [f1], e2, f2, hash);
      TallyMore(z, fs, e1, f1, hash);
      TallyMore(z + [e1], fs + [f1], e2, f2, hash);
      ImageProper(z, fs, e1, f1, e2, f2, id);
      ImageTallied(c, f1, f2, id);
    }

    /** Writes the images of an attachment; a document or image that cannot be read leaves it out. */
    method BackupAttachment(chat: Id, id: Id, a: Attachment) returns (ok: bool)
      requires Going() && id != []
      modifies this`zip, this`files, this`written, this`expanded, this`counts, this`links, this`omissions
      ensures Valid() && (ok ==> Going())
      ensures ok ==> zip == old(zip) + AttachmentEntries(chat, id, a) && counts == WithImages(old(counts), AttachmentImages(a))
      ensures ok ==> omissions == old(omissions) + AttachmentOmissions(a) && links == old(links) + AttachmentImages(a)
      ensures ok <==> !AttachmentFails(a) && Writable(old(zip) + AttachmentEntries(chat, id, a))
    {
      hide Valid, Proper, Tally, Indexed, PageEntries, PageImages, PageOmissions, Writable;
      GoingWritable();
      AttachmentIs(zip, chat, id, a);
      if a.document == Some(Gone) {
        omissions := omissions + 1;
        return true;
      }
      if a.document == Some(Fails) { return false; }
      if a.image.Some? {
        match a.image.value {
          case Gone =>
            omissions := omissions + 1;
            return true;
          case Fails => return false;
          case Image(content, size) =>
            ok := AddImage(chat, id, content, size);
            if !ok { return; }
        }
      }
      ok := BackupPages(chat, id, a.pages);
    }

    /** Writes the images of an attachment's pages; one that cannot be read is left out. */
    method BackupPages(chat: Id, id: Id, pages: seq<Option<Picture>>) returns (ok: bool)
      requires Going() && id != []
      modifies this`zip, this`files, this`written, this`expanded, this`counts, this`links, this`omissions
      ensures Valid() && (ok ==> Going())
      ensures ok ==> zip == old(zip) + PageEntries(chat, id, pages, |pages|) && counts == WithImages(old(counts), PageImages(pages, |pages|))
      ensures ok ==> omissions == old(omissions) + PageOmissions(pages, |pages|) && links == old(links) + PageImages(pages, |pages|)
      ensures ok <==> Writable(old(zip) + PageEntries(chat, id, pages, |pages|))
    {
      hide Valid, Proper, Tally, Indexed, PageId, Writable;
      ok := true;
      for k := 0 to |pages|
        invariant Going() && counts == WithImages(old(counts), PageImages(pages, k))
        invariant zip == old(zip) + PageEntries(chat, id, pages, k)
        invariant omissions == old(omissions) + PageOmissions(pages, k) && links == old(links) + PageImages(pages, k)
      {
        PageNamesSomething(id, k);
        if pages[k].Some? && pages[k].value.Image? {
          PagesMore(old(zip), chat, id, pages, k);
          ok := AddImage(chat, PageId(id, k), pages[k].value.content, pages[k].value.size);
          if !ok { return; }
        } else if pages[k].Some? {
          omissions := omissions + 1;
        }
      }
      GoingWritable();
      ok := true;
    }

    method BackupMessage(chat: Id, i: nat, attachments: seq<Attachment>) returns (ok: bool)
      requires Going()
      modifies this`zip, this`files, this`written, this`expanded, this`counts, this`links, this`omissions
      ensures Valid() && (ok ==> Going())
      ensures ok ==> zip == old(zip) + MessageEntries(chat, i, attachments, |attachments|)
      ensures ok ==> counts == WithImages(old(counts), MessageImages(attachments, |attachments|))
      ensures ok ==> omissions == old(omissions) + MessageOmissions(attachments, |attachments|)
      ensures ok ==> links == old(links) + MessageImages(attachments, |attachments|)
      ensures ok <==> !MessageFails(attachments) && Writable(old(zip) + MessageEntries(chat, i, attachments, |attachments|))
    {
      hide Valid, Proper, Tally, Indexed, AttachmentEntries, AttachmentImages, AttachmentOmissions, ImageId, Writable, AttachmentFails;
      ok := true;
      for j := 0 to |attachments|
        invariant Going() && ok && zip == old(zip) + MessageEntries(chat, i, attachments, j)
        invariant counts == WithImages(old(counts), MessageImages(attachments, j))
        invariant omissions == old(omissions) + MessageOmissions(attachments, j) && links == old(links) + MessageImages(attachments, j)
        invariant forall k :: 0 <= k < j ==> !AttachmentFails(attachments[k])
      {
        MessageMore(old(zip), chat, i, attachments, j);
        NamesSomething(chat, i, j);
        ok := BackupAttachment(chat, ImageId(chat, i, j), attachments[j]);
        if !ok { return; }
      }
      GoingWritable();
    }

    // ---- What is written so far is part of what is to be ----

    lemma GoingWritable()
      requires Going()
      ensures Writable(zip)
    {
      hide Proper, Tally, Indexed;
    }

    /** What an attachment adds: nothing if it is gone, else its image, if it has one, and its pages'. */
    lemma AttachmentIs(z: seq<Entry>, chat: Id, id: Id, a: Attachment)
      ensures a.document == Some(Gone) || a.image == Some(Gone) ==> z + AttachmentEntries(chat, id, a) == z
      ensures a.document != Some(Gone) && a.image.None? ==> z + AttachmentEntries(chat, id, a) == z + PageEntries(chat, id, a.pages, |a.pages|)
      ensures a.document != Some(Gone) && a.image.Some? && a.image.value.Image? ==>
                var first := ImageEntries(chat, id, a.image.value);
                && z + AttachmentEntries(chat, id, a) == z + first + PageEntries(chat, id, a.pages, |a.pages|)
                && (Writable(z + AttachmentEntries(chat, id, a)) ==> Writable(z + first))
    {
      hide PageEntries, ImageEntries, Writable;
      if a.document != Some(Gone) && a.image.Some? && a.image.value.Image? {
        StillWritable(z, ImageEntries(chat, id, a.image.value), AttachmentEntries(chat, id, a));
      }
    }

    lemma ProjectIs(z: seq<Entry>, p: Project)
      ensures var first := Entry(EntityPath("projects", p.id), Raw(Row(p.id, p.content)));
              && z + [first] + DocumentEntries(p, |p.documents|) == z + ProjectEntries(p)
              && (Writable(z + ProjectEntries(p)) ==> Writable(z + [first]))
    {
      hide DocumentEntries, EntityPath, Writable;
      var first := Entry(EntityPath("projects", p.id), Raw(Row(p.id, p.content)));
      StillWritable(z, [first], ProjectEntries(p));
    }

    lemma ChatIs(z: seq<Entry>, kind: string, c: Chat)
      ensures z + MessagesEntries(c, |c.messages|) + [Entry(EntityPath(kind, c.id), Raw(Row(c.id, c.content)))] == z + ChatEntries(kind, c)
    {
      hide MessagesEntries, EntityPath;
    }

    lemma PagesMore(z: seq<Entry>, chat: Id, id: Id, pages: seq<Option<Picture>>, k: nat)
      requires k < |pages|
      ensures Writable(z + PageEntries(chat, id, pages, |pages|)) ==> Writable(z + PageEntries(chat, id, pages, k + 1))
      ensures pages[k].Some? ==>
                z + PageEntries(chat, id, pages, k) + ImageEntries(chat, PageId(id, k), pages[k].value) == z + PageEntries(chat, id, pages, k + 1)
    {
      hide Writable, ImageEntries, PageId;
      PagesPrefix(chat, id, pages, k + 1, |pages|);
      StillWritable(z, PageEntries(chat, id, pages, k + 1), PageEntries(chat, id, pages, |pages|));
    }

    lemma {:induction false} PagesPrefix(chat: Id, id: Id, pages: seq<Option<Picture>>, k: nat, n: nat)
      requires k <= n <= |pages|
      ensures PageEntries(chat, id, pages, k) <= PageEntries(chat, id, pages, n)
    {
      hide ImageEntries, PageId;
      if k < n { PagesPrefix(chat, id, pages, k, n - 1); }
    }

    lemma MessageMore(z: seq<Entry>, chat: Id, i: nat, attachments: seq<Attachment>, j: nat)
      requires j < |attachments|
      ensures Writable(z + MessageEntries(chat, i, attachments, |attachments|)) ==> Writable(z + MessageEntries(chat, i, attachments, j + 1))
      ensures z + MessageEntries(chat, i, attachments, j) + AttachmentEntries(chat, ImageId(chat, i, j), attachments[j])
           == z + MessageEntries(chat, i, attachments, j + 1)
    {
      hide Writable, AttachmentEntries, ImageId;
      MessagePrefix(chat, i, attachments, j + 1, |attachments|);
      StillWritable(z, MessageEntries(chat, i, attachments, j + 1), MessageEntries(chat, i, attachments, |attachments|));
    }

    lemma {:induction false} MessagePrefix(chat: Id, i: nat, attachments: seq<Attachment>, j: nat, n: nat)
      requires j <= n <= |attachments|
      ensures MessageEntries(chat, i, attachments, j) <= MessageEntries(chat, i, attachments, n)
    {
      hide AttachmentEntries, ImageId;
      if j < n { MessagePrefix(chat, i, attachments, j, n - 1); }
    }

    lemma ChatMore(z: seq<Entry>, kind: string, c: Chat, i: nat)
      requires i < |c.messages|
      ensures Writable(z + ChatEntries(kind, c)) ==> Writable(z + MessagesEntries(c, i + 1))
      ensures z + MessagesEntries(c, i) + MessageEntries(c.id, i, c.messages[i], |c.messages[i]|) == z + MessagesEntries(c, i + 1)
    {
      hide Writable, MessageEntries, EntityPath;
      MessagesPrefix(c, i + 1, |c.messages|);
      StillWritable(z, MessagesEntries(c, i + 1), ChatEntries(kind, c));
    }

    lemma {:induction false} MessagesPrefix(c: Chat, i: nat, n: nat)
      requires i <= n <= |c.messages|
      ensures MessagesEntries(c, i) <= MessagesEntries(c, n)
    {
      hide MessageEntries;
      if i < n { MessagesPrefix(c, i, n - 1); }
    }

    lemma DocumentsMore(z: seq<Entry>, p: Project, i: nat)
      requires i < |p.documents| && p.documents[i].Some?
      ensures Writable(z + DocumentEntries(p, |p.documents|)) ==> Writable(z + DocumentEntries(p, i + 1))
      ensures var d := p.documents[i].value;
              z + DocumentEntries(p, i) + [Entry(DocumentPath(p.id, d.id), Raw(Row(d.id, d.content)))] == z + DocumentEntries(p, i + 1)
    {
      hide Writable, DocumentPath;
      DocumentsPrefix(p, i + 1, |p.documents|);
      StillWritable(z, DocumentEntries(p, i + 1), DocumentEntries(p, |p.documents|));
    }

    lemma {:induction false} DocumentsPrefix(p: Project, i: nat, n: nat)
      requires i <= n <= |p.documents|
      ensures DocumentEntries(p, i) <= DocumentEntries(p, n)
    {
      hide DocumentPath;
      if i < n { DocumentsPrefix(p, i, n - 1); }
    }

    lemma ProjectsMore(ps: seq<Option<Project>>, i: nat)
      requires i < |ps| && ps[i].Some?
      ensures Writable(ProjectsEntries(ps, |ps|)) ==> Writable(ProjectsEntries(ps, i) + ProjectEntries(ps[i].value))
    {
      hide Writable, ProjectEntries;
      ProjectsPrefix(ps, i + 1, |ps|);
      StillWritable([], ProjectsEntries(ps, i + 1), ProjectsEntries(ps, |ps|));
      assert [] + ProjectsEntries(ps, i + 1) == ProjectsEntries(ps, i + 1) && [] + ProjectsEntries(ps, |ps|) == ProjectsEntries(ps, |ps|);
    }

    lemma {:induction false} ProjectsPrefix(ps: seq<Option<Project>>, i: nat, n: nat)
      requires i <= n <= |ps|
      ensures ProjectsEntries(ps, i) <= ProjectsEntries(ps, n)
    {
      hide ProjectEntries;
      if i < n { ProjectsPrefix(ps, i, n - 1); }
    }

    lemma CloudMore(z: seq<Entry>, cs: seq<Option<Chat>>, i: nat)
      requires i < |cs| && cs[i].Some?
      ensures Writable(z + CloudEntries(cs, |cs|)) ==> Writable(z + CloudEntries(cs, i + 1))
      ensures z + CloudEntries(cs, i) + ChatEntries("cloud_chats", cs[i].value) == z + CloudEntries(cs, i + 1)
    {
      hide Writable, ChatEntries;
      CloudPrefix(cs, i + 1, |cs|);
      StillWritable(z, CloudEntries(cs, i + 1), CloudEntries(cs, |cs|));
    }

    lemma {:induction false} CloudPrefix(cs: seq<Option<Chat>>, i: nat, n: nat)
      requires i <= n <= |cs|
      ensures CloudEntries(cs, i) <= CloudEntries(cs, n)
    {
      hide ChatEntries;
      if i < n { CloudPrefix(cs, i, n - 1); }
    }

    lemma DeviceMore(z: seq<Entry>, cs: seq<Chat>, cloud: set<Id>, i: nat)
      requires i < |cs| && cs[i].id !in cloud
      ensures Writable(z + DeviceEntries(cs, cloud, |cs|)) ==> Writable(z + DeviceEntries(cs, cloud, i + 1))
      ensures z + DeviceEntries(cs, cloud, i) + ChatEntries("local_chats", cs[i]) == z + DeviceEntries(cs, cloud, i + 1)
    {
      hide Writable, ChatEntries;
      DevicePrefix(cs, cloud, i + 1, |cs|);
      StillWritable(z, DeviceEntries(cs, cloud, i + 1), DeviceEntries(cs, cloud, |cs|));
    }

    lemma {:induction false} DevicePrefix(cs: seq<Chat>, cloud: set<Id>, i: nat, n: nat)
      requires i <= n <= |cs|
      ensures DeviceEntries(cs, cloud, i) <= DeviceEntries(cs, cloud, n)
    {
      hide ChatEntries;
      if i < n { DevicePrefix(cs, cloud, i, n - 1); }
    }

    static lemma PageNamesSomething(id: Id, k: nat)
      ensures PageId(id, k) != []
    {}

    static lemma NamesSomething(chat: Id, i: nat, j: nat)
      ensures ImageId(chat, i, j) != []
    {}

    method BackupChat(kind: string, c: Chat) returns (ok: bool)
      requires Going() && ChatOk(c) && (kind == "cloud_chats" || kind == "local_chats")
      modifies this`zip, this`files, this`written, this`expanded, this`counts, this`links, this`omissions
      ensures Valid() && (ok ==> Going())
      ensures ok ==> zip == old(zip) + ChatEntries(kind, c) && counts == Bumped(WithImages(old(counts), ChatImages(c, |c.messages|)), kind)
      ensures ok ==> omissions == old(omissions) + ChatOmissions(c, |c.messages|) && links == old(links) + ChatImages(c, |c.messages|)
      ensures ok <==> !ChatFails(c) && Writable(old(zip) + ChatEntries(kind, c))
    {
      hide Valid, Proper, Tally, Indexed, MessageEntries, MessageImages, MessageOmissions, EntityPath, Writable, MessageFails, ChatEntries, Sizes;
      for i := 0 to |c.messages|
        invariant Going() && zip == old(zip) + MessagesEntries(c, i)
        invariant counts == WithImages(old(counts), ChatImages(c, i))
        invariant omissions == old(omissions) + ChatOmissions(c, i) && links == old(links) + ChatImages(c, i)
        invariant forall k :: 0 <= k < i ==> !MessageFails(c.messages[k])
      {
        ChatMore(old(zip), kind, c, i);
        ok := BackupMessage(c.id, i, c.messages[i]);
        if !ok { return; }
      }
      RowIsCountable(kind, c.id, Raw(Row(c.id, c.content)));
      ChatIs(old(zip), kind, c);
      ok := AddCounted(kind, EntityPath(kind, c.id), Raw(Row(c.id, c.content)));
    }

    method BackupDocuments(p: Project) returns (ok: bool)
      requires Going() && ProjectOk(p)
      modifies this`zip, this`files, this`written, this`expanded, this`counts, this`links, this`omissions
      ensures Valid() && (ok ==> Going())
      ensures ok ==> zip == old(zip) + DocumentEntries(p, |p.documents|)
      ensures ok ==> counts == old(counts).(documents := old(counts).documents + Given(p.documents, |p.documents|))
      ensures ok ==> omissions == old(omissions) + Missing(p.documents, |p.documents|) && links == old(links) + Given(p.documents, |p.documents|)
      ensures ok <==> Writable(old(zip) + DocumentEntries(p, |p.documents|))
    {
      hide Valid, Proper, Tally, Indexed, DocumentPath, Countable, Writable;
      ok := true;
      for i := 0 to |p.documents|
        invariant Going() && ok && zip == old(zip) + DocumentEntries(p, i)
        invariant counts == old(counts).(documents := old(counts).documents + Given(p.documents, i))
        invariant omissions == old(omissions) + Missing(p.documents, i) && links == old(links) + Given(p.documents, i)
      {
        if p.documents[i].None? {
          omissions := omissions + 1;
        } else {
          var d := p.documents[i].value;
          DocumentIsCountable(p.id, d.id, Raw(Row(d.id, d.content)));
          DocumentsMore(old(zip), p, i);
          ok := AddCounted("project_documents", DocumentPath(p.id, d.id), Raw(Row(d.id, d.content)));
          if !ok { return; }
          links := links + 1;
        }
      }
      GoingWritable();
    }

    method BackupProject(p: Project) returns (ok: bool)
      requires Going() && ProjectOk(p)
      modifies this`zip, this`files, this`written, this`expanded, this`counts, this`links, this`omissions
      ensures Valid() && (ok ==> Going())
      ensures ok ==> zip == old(zip) + ProjectEntries(p)
      ensures ok ==> counts == old(counts).(projects := old(counts).projects + 1, documents := old(counts).documents + Given(p.documents, |p.documents|))
      ensures ok ==> omissions == old(omissions) + Missing(p.documents, |p.documents|) && links == old(links) + Given(p.documents, |p.documents|)
      ensures ok <==> Writable(old(zip) + ProjectEntries(p))
    {
      hide Valid, Proper, Tally, Indexed, DocumentEntries, EntityPath, Countable, Given, Missing, Writable, ProjectEntries, Sizes;
      RowIsCountable("projects", p.id, Raw(Row(p.id, p.content)));
      ProjectIs(zip, p);
      ok := AddCounted("projects", EntityPath("projects", p.id), Raw(Row(p.id, p.content)));
      if !ok { return; }
      ok := BackupDocuments(p);
    }

    /**
     The cloud's projects and chats when they are given, the device's chats not in the
     cloud, the links, and the manifest: everything given that can be read is in the
     archive, once and in order, and counted; what is not is an omission. It is finished
     exactly if no read fails and all of it fits.
     */
    method WriteBackup(projects: seq<Option<Project>>, cloud: seq<Option<Chat>>, device: seq<Chat>) returns (ok: bool, ghost m: Manifest)
      requires Going() && omissions == 0 && links == 0 && zip == [] && counts == NONE
      requires forall i :: 0 <= i < |projects| && projects[i].Some? ==> ProjectOk(projects[i].value)
      requires forall i :: 0 <= i < |cloud| && cloud[i].Some? ==> ChatOk(cloud[i].value)
      requires forall i :: 0 <= i < |device| ==> ChatOk(device[i])
      modifies this
      ensures ok <==>
              && !CloudFails(cloud) && !DeviceFails(device, CloudIds(cloud)) && Writable(Written(projects, cloud, device))
              && ManifestFits(Written(projects, cloud, device), m)
      ensures ok ==> Accepted(zip, m, hash) && |zip| <= MAX_ENTRIES && m.counts == counts
      ensures ok ==> omissions == AllOmissions(projects, cloud, device) && (m.complete <==> AllHeld(projects, cloud, device))
      ensures ok ==> m.counts.relationships == AllLinks(projects, cloud, device)
      ensures ok ==> |zip| == |Written(projects, cloud, device)| + 1 && zip[..|zip| - 1] == Written(projects, cloud, device)
      ensures ok ==> m.counts.projects == Given(projects, |projects|) && m.counts.documents == GivenDocuments(projects, |projects|)
      ensures ok ==> m.counts.cloudChats == Given(cloud, |cloud|) && m.counts.localChats == GivenDevice(device, CloudIds(cloud), |device|)
      ensures ok ==> m.counts.images == CloudImages(cloud, |cloud|) + DeviceImages(device, CloudIds(cloud), |device|)
    {
      hide Valid, Proper, Tally, Indexed, Accepted, ChatEntries, ProjectEntries, DocumentEntries, ChatImages, ChatOmissions, AllHeld, Writable, CloudFails, DeviceFails;
      hide CloudEntries, DeviceEntries, ProjectsEntries, Given, GivenDocuments, CloudImages, DeviceImages, GivenDevice, CloudOmissions, DeviceOmissions, ProjectOmissions, Filed, HeldIds, ManifestFits;
      OmitsNothing(projects, cloud, device);
      Stages(projects, cloud, device);
      m := Manifest(true, VERSION, false, NONE, []);
      var held;
      ok, held := WriteProjects(projects);
      if !ok { return; }
      NamedProjects(projects, |projects|);
      ok := WriteCloud(cloud, held);
      if !ok { return; }
      ok := WriteDevice(device, CloudIds(cloud));
      if !ok { return; }
      ok := AddRelationships();
      if !ok { return; }
      ok, m := Close();
    }

    /** Everything given that can be read, and the links. */
    function Written(projects: seq<Option<Project>>, cloud: seq<Option<Chat>>, device: seq<Chat>): seq<Entry> {
      AllEntries(projects, cloud, device) + [Entry(RELATIONSHIPS, Raw(Relationships(AllLinks(projects, cloud, device))))]
    }

    /** A manifest within its limit that does not take the backup past its own. */
    predicate ManifestFits(entries: seq<Entry>, m: Manifest) {
      jsonSize(ManifestBody(m)) <= MAX_MANIFEST && Sizes(entries) + jsonSize(ManifestBody(m)) <= MAX_EXPANSION
    }

    /** What is written at each stage is part of the whole. */
    lemma Stages(projects: seq<Option<Project>>, cloud: seq<Option<Chat>>, device: seq<Chat>)
      ensures var ps, cs, ds, all := ProjectsEntries(projects, |projects|), CloudEntries(cloud, |cloud|),
                                     DeviceEntries(device, CloudIds(cloud), |device|), Written(projects, cloud, device);
              Writable(all) ==> Writable(ps) && Writable(ps + cs) && Writable(ps + cs + ds)
    {
      hide Writable, CloudEntries, DeviceEntries, ProjectsEntries, AllLinks;
      var ps, cs, ds, all := ProjectsEntries(projects, |projects|), CloudEntries(cloud, |cloud|),
                             DeviceEntries(device, CloudIds(cloud), |device|), Written(projects, cloud, device);
      assert [] + all == all && [] + ps == ps && [] + (ps + cs) == ps + cs && [] + (ps + cs + ds) == ps + cs + ds;
      StillWritable([], ps, all);
      StillWritable([], ps + cs, all);
      StillWritable([], ps + cs + ds, all);
    }

    function AllEntries(projects: seq<Option<Project>>, cloud: seq<Option<Chat>>, device: seq<Chat>): seq<Entry> {
      ProjectsEntries(projects, |projects|) + CloudEntries(cloud, |cloud|) + DeviceEntries(device, CloudIds(cloud), |device|)
    }

    method WriteProjects(projects: seq<Option<Project>>) returns (ok: bool, held: set<Id>)
      requires Going() && omissions == 0 && links == 0 && zip == [] && counts == NONE
      requires forall i :: 0 <= i < |projects| && projects[i].Some? ==> ProjectOk(projects[i].value)
      modifies this`zip, this`files, this`written, this`expanded, this`counts, this`links, this`omissions
      ensures ok <==> Writable(ProjectsEntries(projects, |projects|))
      ensures ok ==> Going() && zip == ProjectsEntries(projects, |projects|) && held == HeldIds(projects, |projects|)
      ensures ok ==> counts == Counts(Given(projects, |projects|), GivenDocuments(projects, |projects|), 0, 0, 0, 0, 0)
      ensures ok ==> omissions == ProjectOmissions(projects, |projects|) && links == GivenDocuments(projects, |projects|)
    {
      hide Valid, Proper, Tally, Indexed, ProjectEntries, DocumentEntries, Writable;
      ok, held := true, {};
      for i := 0 to |projects|
        invariant Going() && zip == ProjectsEntries(projects, i)
        invariant counts == Counts(Given(projects, i), GivenDocuments(projects, i), 0, 0, 0, 0, 0)
        invariant omissions == ProjectOmissions(projects, i) && links == GivenDocuments(projects, i) && held == HeldIds(projects, i)
      {
        if projects[i].None? {
          omissions := omissions + 1;
        } else {
          ProjectsMore(projects, i);
          ok := BackupProject(projects[i].value);
          if !ok { return; }
          held := held + {projects[i].value.id};
        }
      }
      GoingWritable();
      ok := true;
    }

    method WriteCloud(cloud: seq<Option<Chat>>, held: set<Id>) returns (ok: bool)
      requires Going() && counts.cloudChats == 0 && [] !in held
      requires forall i :: 0 <= i < |cloud| && cloud[i].Some? ==> ChatOk(cloud[i].value)
      modifies this`zip, this`files, this`written, this`expanded, this`counts, this`links, this`omissions
      ensures ok <==> !CloudFails(cloud) && Writable(old(zip) + CloudEntries(cloud, |cloud|))
      ensures ok ==> Going() && zip == old(zip) + CloudEntries(cloud, |cloud|)
      ensures ok ==> counts == WithImages(old(counts), CloudImages(cloud, |cloud|)).(cloudChats := Given(cloud, |cloud|))
      ensures ok ==> omissions == old(omissions) + CloudOmissions(cloud, held, |cloud|)
      ensures ok ==> links == old(links) + CloudImages(cloud, |cloud|) + Filed(cloud, held, |cloud|)
    {
      hide Valid, Proper, Tally, Indexed, ChatEntries, ChatImages, ChatOmissions, Writable, ChatFails;
      ok := true;
      for i := 0 to |cloud|
        invariant Going() && zip == old(zip) + CloudEntries(cloud, i)
        invariant counts == WithImages(old(counts), CloudImages(cloud, i)).(cloudChats := Given(cloud, i))
        invariant omissions == old(omissions) + CloudOmissions(cloud, held, i)
        invariant links == old(links) + CloudImages(cloud, i) + Filed(cloud, held, i)
        invariant forall k :: 0 <= k < i && cloud[k].Some? ==> !ChatFails(cloud[k].value)
      {
        if cloud[i].None? {
          omissions := omissions + 1;
        } else {
          var c := cloud[i].value;
          if c.project.Some? && c.project.value != [] {
            if c.project.value in held {
              links := links + 1;
            } else {
              omissions := omissions + 1;
            }
          }
          CloudMore(old(zip), cloud, i);
          ok := BackupChat("cloud_chats", c);
          if !ok { return; }
        }
      }
      GoingWritable();
      ok := true;
    }

    method WriteDevice(device: seq<Chat>, cloud: set<Id>) returns (ok: bool)
      requires Going() && counts.localChats == 0 && forall i :: 0 <= i < |device| ==> ChatOk(device[i])
      modifies this`zip, this`files, this`written, this`expanded, this`counts, this`links, this`omissions
      ensures ok <==> !DeviceFails(device, cloud) && Writable(old(zip) + DeviceEntries(device, cloud, |device|))
      ensures ok ==> Going() && zip == old(zip) + DeviceEntries(device, cloud, |device|)
      ensures ok ==> counts == WithImages(old(counts), DeviceImages(device, cloud, |device|)).(localChats := GivenDevice(device, cloud, |device|))
      ensures ok ==> omissions == old(omissions) + DeviceOmissions(device, cloud, |device|) && links == old(links) + DeviceImages(device, cloud, |device|)
    {
      hide Valid, Proper, Tally, Indexed, ChatEntries, ChatImages, ChatOmissions, Writable, ChatFails;
      ok := true;
      for i := 0 to |device|
        invariant Going() && zip == old(zip) + DeviceEntries(device, cloud, i)
        invariant counts == WithImages(old(counts), DeviceImages(device, cloud, i)).(localChats := GivenDevice(device, cloud, i))
        invariant omissions == old(omissions) + DeviceOmissions(device, cloud, i) && links == old(links) + DeviceImages(device, cloud, i)
        invariant forall k :: 0 <= k < i && device[k].id !in cloud ==> !ChatFails(device[k])
      {
        if device[i].id in cloud {
          omissions := omissions + 1;
        } else {
          DeviceMore(old(zip), device, cloud, i);
          ok := BackupChat("local_chats", device[i]);
          if !ok { return; }
        }
      }
      GoingWritable();
      ok := true;
    }

    method AddRelationships() returns (ok: bool)
      requires Going()
      modifies this`zip, this`files, this`written, this`expanded, this`counts
      ensures Valid() && (ok ==> Going())
      ensures ok ==> zip == old(zip) + [Entry(RELATIONSHIPS, Raw(Relationships(links)))] && counts == old(counts).(relationships := links)
      ensures ok <==> Writable(old(zip) + [Entry(RELATIONSHIPS, Raw(Relationships(links)))])
    {
      hide Tally, Tallied, Indexed, Writable, Valid, Proper, ProperEntry, Sizes;
      var data := Raw(Relationships(links));
      LinksProper(data, Names(zip + [Entry(RELATIONSHIPS, data)]));
      ok := AddProper("relationships", RELATIONSHIPS, data);
      if !ok { return; }
      LinksTallied(old(counts), Listed(RELATIONSHIPS, "relationships", hash(data), data.size), links);
      counts := counts.(relationships := links);
    }

    /** Adds an entry that is proper, whose count is still to be kept. */
    method AddProper(kind: string, name: string, data: Data) returns (ok: bool)
      requires Going() && ProperEntry(Entry(name, data), kind, Names(zip + [Entry(name, data)]))
      modifies this`zip, this`files, this`written, this`expanded
      ensures Valid() && (ok <==> Writable(old(zip) + [Entry(name, data)]))
      ensures ok ==> zip == old(zip) + [Entry(name, data)] && Proper(zip, files, Names(zip)) && expanded == Sizes(zip)
      ensures ok ==> Tally(files, Indexed(zip)) == Tallied(counts, Listed(name, kind, hash(data), data.size), if data.body.Relationships? then data.body.count else 0)
    {
      hide Tallied, Tally, Indexed, Writable, Limited, ProperEntry, Ext;
      ghost var z, fs := zip, files;
      ghost var e, f := Entry(name, data), Listed(name, kind, hash(data), data.size);
      AddedFits(z, e);
      ok := Add(kind, name, data);
      if !ok { return; }
      TallyMore(z, fs, e, f, hash);
      ProperMore(z, fs, e, f);
    }

    static lemma LinksProper(data: Data, names: set<string>)
      requires data.body.Relationships?
      ensures ProperEntry(Entry(RELATIONSHIPS, data), "relationships", names)
    {
      hide Allowed, Safe, Ext, Kind;
      RelationshipsIsNamed();
    }

    static lemma LinksTallied(c: Counts, f: Listed, n: nat)
      requires f.kind == "relationships"
      ensures Tallied(c, f, n) == c.(relationships := n)
    {}

    /** close: the manifest of everything written becomes the archive's last entry. */
    method Close() returns (ok: bool, ghost m: Manifest)
      requires Going()
      modifies this`zip, this`expanded, this`counts
      ensures ok ==> Accepted(zip, m, hash) && |zip| <= MAX_ENTRIES && m.counts == counts && m.complete == (omissions == 0)
      ensures ok ==> |zip| == |old(zip)| + 1 && zip[..|zip| - 1] == old(zip) && counts == old(counts).(files := |files|)
      ensures ok <==> ManifestFits(old(zip), m)
    {
      hide Accepted, Proper, Tally, Indexed;
      ghost var z, c := zip, counts;
      counts := counts.(files := |files|);
      var manifest := Manifest(true, VERSION, omissions == 0, counts, files);
      m := manifest;
      var data := Raw(ManifestBody(manifest));
      ok := Write(MANIFEST, data, MAX_MANIFEST);
      if ok { FinishedIsAccepted(z, files, c, hash, omissions == 0, data.size); }
    }
  }

  /** A backup written without error is opened, with the counts it was written with. */
  method WriteAndOpen(w: Writer, projects: seq<Option<Project>>, cloud: seq<Option<Chat>>, device: seq<Chat>) returns (written: bool, r: Outcome)
    requires w.Going() && w.omissions == 0 && w.links == 0 && w.zip == [] && w.counts == NONE
    requires forall i :: 0 <= i < |projects| && projects[i].Some? ==> ProjectOk(projects[i].value)
    requires forall i :: 0 <= i < |cloud| && cloud[i].Some? ==> ChatOk(cloud[i].value)
    requires forall i :: 0 <= i < |device| ==> ChatOk(device[i])
    modifies w
    ensures written ==> r.Opened? && r.manifest.counts == w.counts && |w.zip| <= MAX_ENTRIES
    ensures written ==> (r.manifest.complete <==> AllHeld(projects, cloud, device)) && r.manifest.counts.relationships == AllLinks(projects, cloud, device)
    ensures written ==> |w.zip| > 0 && w.zip[..|w.zip| - 1] == w.Written(projects, cloud, device)
  {
    hide Accepted, AllHeld, AllLinks;
    ghost var m;
    written, m := w.WriteBackup(projects, cloud, device);
    r := OpenNativeBackup(w.zip, w.hash);
  }

  // ---- What the writer relies on ----

  /** An entry that is proper whatever else the backup holds. */
  ghost predicate Countable(e: Entry, kind: string) {
    Named(e.name, kind, ".json") && (IsEntityKind(kind) || kind == "project_documents") && e.data.body.Row?
  }

  function WithImages(c: Counts, n: nat): Counts { c.(images := c.images + n) }

  // ---- How many images can be read of what is given ----

  function PictureImages(p: Option<Picture>): nat { if p.Some? && p.value.Image? then 1 else 0 }

  function PageImages(pages: seq<Option<Picture>>, n: nat): nat
    requires n <= |pages|
  {
    if n == 0 then 0 else PageImages(pages, n - 1) + PictureImages(pages[n - 1])
  }

  function AttachmentImages(a: Attachment): nat {
    if a.document == Some(Gone) || a.image == Some(Gone) then 0 else PictureImages(a.image) + PageImages(a.pages, |a.pages|)
  }

  function MessageImages(attachments: seq<Attachment>, n: nat): nat
    requires n <= |attachments|
  {
    if n == 0 then 0 else MessageImages(attachments, n - 1) + AttachmentImages(attachments[n - 1])
  }

  function ChatImages(c: Chat, n: nat): nat
    requires n <= |c.messages|
  {
    if n == 0 then 0 else ChatImages(c, n - 1) + MessageImages(c.messages[n - 1], |c.messages[n - 1]|)
  }

  function CloudImages(cs: seq<Option<Chat>>, n: nat): nat
    requires n <= |cs|
  {
    if n == 0 then 0 else CloudImages(cs, n - 1) + if cs[n - 1].Some? then ChatImages(cs[n - 1].value, |cs[n - 1].value.messages|) else 0
  }

  function DeviceImages(cs: seq<Chat>, cloud: set<Id>, n: nat): nat
    requires n <= |cs|
  {
    if n == 0 then 0 else DeviceImages(cs, cloud, n - 1) + if cs[n - 1].id in cloud then 0 else ChatImages(cs[n - 1], |cs[n - 1].messages|)
  }

  // ---- What is left out of what is given ----

  /** Page images that cannot be read. */
  function PageOmissions(pages: seq<Option<Picture>>, n: nat): nat
    requires n <= |pages|
  {
    if n == 0 then 0 else PageOmissions(pages, n - 1) + if pages[n - 1].Some? && !pages[n - 1].value.Image? then 1 else 0
  }

  /** An attachment that is gone is one omission, whatever its pages. */
  function AttachmentOmissions(a: Attachment): nat {
    if a.document == Some(Gone) || a.image == Some(Gone) then 1 else PageOmissions(a.pages, |a.pages|)
  }

  function MessageOmissions(attachments: seq<Attachment>, n: nat): nat
    requires n <= |attachments|
  {
    if n == 0 then 0 else MessageOmissions(attachments, n - 1) + AttachmentOmissions(attachments[n - 1])
  }

  function ChatOmissions(c: Chat, n: nat): nat
    requires n <= |c.messages|
  {
    if n == 0 then 0 else ChatOmissions(c, n - 1) + MessageOmissions(c.messages[n - 1], |c.messages[n - 1]|)
  }

  /** How many of the first n could not be read. */
  function Missing<T>(xs: seq<Option<T>>, n: nat): nat
    requires n <= |xs|
  {
    if n == 0 then 0 else Missing(xs, n - 1) + if xs[n - 1].None? then 1 else 0
  }

  /** Projects that cannot be read, and documents of the others that cannot. */
  function ProjectOmissions(ps: seq<Option<Project>>, n: nat): nat
    requires n <= |ps|
  {
    if n == 0 then 0
    else ProjectOmissions(ps, n - 1) + if ps[n - 1].Some? then Missing(ps[n - 1].value.documents, |ps[n - 1].value.documents|) else 1
  }

  function HeldIds(ps: seq<Option<Project>>, n: nat): set<Id>
    requires n <= |ps|
  {
    if n == 0 then {} else HeldIds(ps, n - 1) + if ps[n - 1].Some? then {ps[n - 1].value.id} else {}
  }

  predicate FiledIn(c: Chat, held: set<Id>) { c.project.Some? && c.project.value in held }

  /** A chat filed in a project that is not among those held. */
  predicate Detached(c: Chat, held: set<Id>) { c.project.Some? && c.project.value != [] && c.project.value !in held }

  /** Chats that cannot be read, what the others lack, and those whose project is not held. */
  function CloudOmissions(cs: seq<Option<Chat>>, held: set<Id>, n: nat): nat
    requires n <= |cs|
  {
    if n == 0 then 0
    else
      CloudOmissions(cs, held, n - 1)
      + if cs[n - 1].None? then 1
        else ChatOmissions(cs[n - 1].value, |cs[n - 1].value.messages|) + if Detached(cs[n - 1].value, held) then 1 else 0
  }

  /** Chats filed in a project that is held. */
  function Filed(cs: seq<Option<Chat>>, held: set<Id>, n: nat): nat
    requires n <= |cs|
  {
    if n == 0 then 0 else Filed(cs, held, n - 1) + if cs[n - 1].Some? && FiledIn(cs[n - 1].value, held) then 1 else 0
  }

  /** Device copies of chats the cloud holds, and what the other device chats lack. */
  function DeviceOmissions(cs: seq<Chat>, cloud: set<Id>, n: nat): nat
    requires n <= |cs|
  {
    if n == 0 then 0
    else DeviceOmissions(cs, cloud, n - 1) + if cs[n - 1].id in cloud then 1 else ChatOmissions(cs[n - 1], |cs[n - 1].messages|)
  }

  function AllOmissions(projects: seq<Option<Project>>, cloud: seq<Option<Chat>>, device: seq<Chat>): nat {
    ProjectOmissions(projects, |projects|) + CloudOmissions(cloud, HeldIds(projects, |projects|), |cloud|)
    + DeviceOmissions(device, CloudIds(cloud), |device|)
  }

  /** A link for each document, each image, and each chat filed in a project that is held. */
  function AllLinks(projects: seq<Option<Project>>, cloud: seq<Option<Chat>>, device: seq<Chat>): nat {
    GivenDocuments(projects, |projects|) + CloudImages(cloud, |cloud|) + Filed(cloud, HeldIds(projects, |projects|), |cloud|)
    + DeviceImages(device, CloudIds(cloud), |device|)
  }

  // ---- What cannot be read for now ----

  /** A document or an image whose read fails, as opposed to one that is gone, ends the backup. */
  predicate AttachmentFails(a: Attachment) {
    a.document == Some(Fails) || (a.document != Some(Gone) && a.image == Some(Fails))
  }

  ghost predicate MessageFails(attachments: seq<Attachment>) {
    exists j :: 0 <= j < |attachments| && AttachmentFails(attachments[j])
  }

  ghost predicate ChatFails(c: Chat) {
    exists i :: 0 <= i < |c.messages| && MessageFails(c.messages[i])
  }

  ghost predicate CloudFails(cs: seq<Option<Chat>>) {
    exists i :: 0 <= i < |cs| && cs[i].Some? && ChatFails(cs[i].value)
  }

  ghost predicate DeviceFails(cs: seq<Chat>, cloud: set<Id>) {
    exists i :: 0 <= i < |cs| && cs[i].id !in cloud && ChatFails(cs[i])
  }

  // ---- When nothing is left out ----

  ghost predicate AttachmentHeld(a: Attachment) {
    && a.document != Some(Gone) && a.image != Some(Gone)
    && forall k :: 0 <= k < |a.pages| && a.pages[k].Some? ==> a.pages[k].value.Image?
  }

  ghost predicate MessageHeld(attachments: seq<Attachment>) {
    forall j :: 0 <= j < |attachments| ==> AttachmentHeld(attachments[j])
  }

  /** Every attachment of the chat is there, with every page image. */
  ghost predicate ChatHeld(c: Chat) {
    forall i :: 0 <= i < |c.messages| ==> MessageHeld(c.messages[i])
  }

  ghost predicate AllSome<T>(xs: seq<Option<T>>) { forall i :: 0 <= i < |xs| ==> xs[i].Some? }

  /** A chat is filed nowhere or in a project that was read. */
  ghost predicate ProjectHeld(c: Chat, projects: seq<Option<Project>>) {
    c.project.Some? && c.project.value != [] ==> IsProject(projects, c.project.value)
  }

  ghost predicate IsProject(projects: seq<Option<Project>>, id: Id) {
    exists i :: 0 <= i < |projects| && projects[i].Some? && projects[i].value.id == id
  }

  /** Everything given could be read, every chat's project is held, and no device chat is in the cloud too. */
  ghost predicate AllHeld(projects: seq<Option<Project>>, cloud: seq<Option<Chat>>, device: seq<Chat>) {
    && AllSome(projects) && (forall i :: 0 <= i < |projects| ==> AllSome(projects[i].value.documents))
    && AllSome(cloud) && (forall i :: 0 <= i < |cloud| ==> ChatHeld(cloud[i].value) && ProjectHeld(cloud[i].value, projects))
    && forall i :: 0 <= i < |device| ==> device[i].id !in CloudIds(cloud) && ChatHeld(device[i])
  }

  lemma {:induction false} PagesHeld(pages: seq<Option<Picture>>, n: nat)
    requires n <= |pages|
    ensures PageOmissions(pages, n) == 0 <==> forall k :: 0 <= k < n && pages[k].Some? ==> pages[k].value.Image?
  {
    if n > 0 { PagesHeld(pages, n - 1); }
  }

  lemma {:induction false} AttachmentsHeld(attachments: seq<Attachment>, n: nat)
    requires n <= |attachments|
    ensures MessageOmissions(attachments, n) == 0 <==> forall j :: 0 <= j < n ==> AttachmentHeld(attachments[j])
  {
    hide PageOmissions;
    if n > 0 {
      AttachmentsHeld(attachments, n - 1);
      PagesHeld(attachments[n - 1].pages, |attachments[n - 1].pages|);
    }
  }

  lemma {:induction false} MessagesHeld(c: Chat, n: nat)
    requires n <= |c.messages|
    ensures ChatOmissions(c, n) == 0 <==> forall i :: 0 <= i < n ==> MessageHeld(c.messages[i])
  {
    hide MessageOmissions, AttachmentHeld;
    if n > 0 {
      MessagesHeld(c, n - 1);
      AttachmentsHeld(c.messages[n - 1], |c.messages[n - 1]|);
    }
  }

  lemma {:induction false} NoneMissing<T>(xs: seq<Option<T>>, n: nat)
    requires n <= |xs|
    ensures Missing(xs, n) == 0 <==> forall i :: 0 <= i < n ==> xs[i].Some?
  {
    if n > 0 { NoneMissing(xs, n - 1); }
  }

  lemma {:induction false} ProjectsHeld(ps: seq<Option<Project>>, n: nat)
    requires n <= |ps|
    ensures ProjectOmissions(ps, n) == 0 <==> forall i :: 0 <= i < n ==> ps[i].Some? && AllSome(ps[i].value.documents)
  {
    hide Missing;
    if n > 0 {
      ProjectsHeld(ps, n - 1);
      if ps[n - 1].Some? { NoneMissing(ps[n - 1].value.documents, |ps[n - 1].value.documents|); }
    }
  }

  lemma {:induction false} NamedProjects(ps: seq<Option<Project>>, n: nat)
    requires n <= |ps| && forall i :: 0 <= i < |ps| && ps[i].Some? ==> ProjectOk(ps[i].value)
    ensures [] !in HeldIds(ps, n)
  {
    if n > 0 { NamedProjects(ps, n - 1); }
  }

  lemma {:induction false} HeldIsProject(ps: seq<Option<Project>>, n: nat, id: Id)
    requires n <= |ps|
    ensures id in HeldIds(ps, n) <==> exists i :: 0 <= i < n && ps[i].Some? && ps[i].value.id == id
  {
    if n > 0 { HeldIsProject(ps, n - 1, id); }
  }

  lemma {:induction false} CloudHeld(ps: seq<Option<Project>>, cs: seq<Option<Chat>>, n: nat)
    requires n <= |cs|
    ensures CloudOmissions(cs, HeldIds(ps, |ps|), n) == 0 <==>
              forall i :: 0 <= i < n ==> cs[i].Some? && ChatHeld(cs[i].value) && ProjectHeld(cs[i].value, ps)
  {
    hide ChatOmissions, MessageHeld, HeldIds;
    if n > 0 {
      CloudHeld(ps, cs, n - 1);
      if cs[n - 1].Some? {
        var c := cs[n - 1].value;
        MessagesHeld(c, |c.messages|);
        if c.project.Some? { HeldIsProject(ps, |ps|, c.project.value); }
      }
    }
  }

  lemma {:induction false} DeviceHeld(cs: seq<Chat>, cloud: set<Id>, n: nat)
    requires n <= |cs|
    ensures DeviceOmissions(cs, cloud, n) == 0 <==> forall i :: 0 <= i < n ==> cs[i].id !in cloud && ChatHeld(cs[i])
  {
    hide ChatOmissions, MessageHeld;
    if n > 0 {
      DeviceHeld(cs, cloud, n - 1);
      MessagesHeld(cs[n - 1], |cs[n - 1].messages|);
    }
  }

  /** A backup omits nothing exactly if all it was given could be read and linked. */
  lemma OmitsNothing(projects: seq<Option<Project>>, cloud: seq<Option<Chat>>, device: seq<Chat>)
    ensures AllOmissions(projects, cloud, device) == 0 <==> AllHeld(projects, cloud, device)
  {
    hide ProjectOmissions, CloudOmissions, DeviceOmissions, HeldIds, CloudIds, ChatHeld, ProjectHeld;
    ProjectsHeld(projects, |projects|);
    CloudHeld(projects, cloud, |cloud|);
    DeviceHeld(device, CloudIds(cloud), |device|);
  }

  /** How many of the first n could be read. */
  function Given<T>(xs: seq<Option<T>>, n: nat): nat
    requires n <= |xs|
  {
    if n == 0 then 0 else Given(xs, n - 1) + if xs[n - 1].Some? then 1 else 0
  }

  function GivenDocuments(ps: seq<Option<Project>>, n: nat): nat
    requires n <= |ps|
  {
    if n == 0 then 0 else GivenDocuments(ps, n - 1) + if ps[n - 1].Some? then Given(ps[n - 1].value.documents, |ps[n - 1].value.documents|) else 0
  }

  function GivenDevice(cs: seq<Chat>, cloud: set<Id>, n: nat): nat
    requires n <= |cs|
  {
    if n == 0 then 0 else GivenDevice(cs, cloud, n - 1) + if cs[n - 1].id in cloud then 0 else 1
  }

  function CloudIds(cloud: seq<Option<Chat>>): set<Id> { set i | 0 <= i < |cloud| && cloud[i].Some? :: cloud[i].value.id }

  function Bumped(c: Counts, kind: string): Counts {
    if kind == "projects" then c.(projects := c.projects + 1)
    else if kind == "project_documents" then c.(documents := c.documents + 1)
    else if kind == "cloud_chats" then c.(cloudChats := c.cloudChats + 1)
    else c.(localChats := c.localChats + 1)
  }

  lemma CountableIsProper(e: Entry, kind: string, names: set<string>)
    requires Countable(e, kind)
    ensures ProperEntry(e, kind, names) && !e.data.body.Relationships?
  {
    hide Allowed, Safe, Ext;
  }

  lemma BumpedIsTallied(c: Counts, f: Listed, name: string)
    requires IsEntityKind(f.kind) || f.kind == "project_documents"
    ensures Tallied(c, f, 0) == Bumped(c, f.kind)
  {}

  lemma ImageTallied(c: Counts, f1: Listed, f2: Listed, id: Id)
    requires id != [] && f1.path == ImagePath(id, ".json") && f2.path == ImagePath(id, ".bin") && f1.kind == "images" && f2.kind == "images"
    ensures Tallied(Tallied(c, f1, 0), f2, 0) == c.(images := c.images + 1)
  {
    hide Ext, ImagePath;
    ImageIsNamed(id);
  }

  lemma RowIsCountable(kind: string, id: Id, data: Data)
    requires IsEntityKind(kind) && id != [] && data.body.Row?
    ensures Countable(Entry(EntityPath(kind, id), data), kind)
  {
    EntityIsNamed(kind, id);
  }

  lemma DocumentIsCountable(project: Id, id: Id, data: Data)
    requires project != [] && id != [] && data.body.Row?
    ensures Countable(Entry(DocumentPath(project, id), data), "project_documents")
  {
    DocumentIsNamed(project, id);
  }

  /** Entries that fit do so without the last of them. */
  lemma StillWritable(z: seq<Entry>, part: seq<Entry>, whole: seq<Entry>)
    requires part <= whole
    ensures Writable(z + whole) ==> Writable(z + part)
  {
    hide Limit;
    var a, b := z + part, z + whole;
    assert a == b[..|a|];
    assert forall i :: 0 <= i < |a| ==> a[i] == b[i];
    SizesPrefix(b, |a|);
  }

  lemma AddedWritable(zip: seq<Entry>, e: Entry)
    ensures Writable(zip + [e]) <==>
              Unique(zip) && e.name !in Names(zip) && |zip| + 1 < MAX_ENTRIES && Sizes(zip) + e.data.size <= MAX_EXPANSION
              && e.data.size <= Limit(e.name) && forall i :: 0 <= i < |zip| ==> zip[i].data.size <= Limit(zip[i].name)
  {
    hide Limit, Sizes, Names;
    AddedFits(zip, e);
    var all := zip + [e];
    assert all[|zip|] == e && forall i :: 0 <= i < |zip| ==> all[i] == zip[i];
    NameTwice(zip, e);
  }

  lemma NameTwice(zip: seq<Entry>, e: Entry)
    ensures Unique(zip + [e]) <==> Unique(zip) && e.name !in Names(zip)
  {
    var all := zip + [e];
    assert all[|zip|] == e && forall i :: 0 <= i < |zip| ==> all[i] == zip[i];
    AddedFits(zip, e);
    if Unique(all) {
      UniqueLess(zip, e);
      forall i | 0 <= i < |zip| ensures zip[i].name != e.name { assert all[i].name != all[|zip|].name; }
    }
  }

  lemma AddedFits(zip: seq<Entry>, e: Entry)
    ensures Sizes(zip + [e]) == Sizes(zip) + e.data.size && Names(zip + [e]) == Names(zip) + {e.name}
    ensures Unique(zip) && e.name !in Names(zip) ==> Unique(zip + [e])
  {
    assert (zip + [e])[..|zip|] == zip;
    forall n ensures n in Names(zip + [e]) <==> n in Names(zip) + {e.name} {
      if n in Names(zip) {
        var i :| 0 <= i < |zip| && zip[i].name == n;
        assert (zip + [e])[i].name == n;
      }
      if n == e.name { assert (zip + [e])[|zip|].name == n; }
    }
  }

  /** One more proper entry keeps them all proper. */
  lemma ProperMore(zip: seq<Entry>, files: seq<Listed>, e: Entry, f: Listed)
    requires Proper(zip, files, Names(zip)) && ProperEntry(e, f.kind, Names(zip + [e]))
    ensures Proper(zip + [e], files + [f], Names(zip + [e]))
  {
    hide Allowed, Safe, Kind, Ext, ImagePath, Names;
    AddedFits(zip, e);
    forall i | 0 <= i < |zip + [e]| ensures ProperEntry((zip + [e])[i], (files + [f])[i].kind, Names(zip + [e])) {
      if i < |zip| { assert ProperEntry(zip[i], files[i].kind, Names(zip)); }
    }
  }

  /** An image's two entries are proper together. */
  lemma ImageProper(zip: seq<Entry>, files: seq<Listed>, e1: Entry, f1: Listed, e2: Entry, f2: Listed, id: Id)
    requires Proper(zip, files, Names(zip)) && id != []
    requires e1.name == ImagePath(id, ".json") && e1.data.body.ImageMeta? && e1.data.body.id == id && f1.kind == "images"
    requires e2.name == ImagePath(id, ".bin") && f2.kind == "images"
    ensures Proper(zip + [e1] + [e2], files + [f1] + [f2], Names(zip + [e1] + [e2]))
  {
    hide Allowed, Safe, Kind, Ext, ImagePath, Names;
    AddedFits(zip, e1);
    AddedFits(zip + [e1], e2);
    ImageIsNamed(id);
    var all, fs := zip + [e1] + [e2], files + [f1] + [f2];
    assert |"images"| != |"relationships"|;
    forall i | 0 <= i < |all| ensures ProperEntry(all[i], fs[i].kind, Names(all)) {
      if i < |zip| { assert ProperEntry(zip[i], files[i].kind, Names(zip)); }
    }
  }
}
