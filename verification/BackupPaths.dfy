/**
 The names of a native backup's entries (internal/archives/backup.go), as the writer
 builds them and as a restore takes them apart.
 */
module BackupPaths {

  type Byte = b: int | 0 <= b < 256

  type Id = seq<Byte>

  const MANIFEST := "manifest.json"
  const RELATIONSHIPS := "relationships.json"

  // ---- What the writer builds ----

  function HexDigit(n: int): char
    requires 0 <= n < 16
  {
    if n < 10 then ('0' as int + n) as char else ('a' as int + n - 10) as char
  }

  function Hex(id: Id): string {
    if id == [] then "" else [HexDigit(id[0] / 16), HexDigit(id[0] % 16)] + Hex(id[1..])
  }

  function IdComponent(id: Id): string { "id-" + Hex(id) }

  function EntityPath(kind: string, id: Id): string { kind + "/" + (IdComponent(id) + ".json") }

  function DocumentPath(project: Id, id: Id): string {
    "project_documents" + "/" + (IdComponent(project) + "/" + (IdComponent(id) + ".json"))
  }

  function ImagePath(id: Id, extension: string): string { "images" + "/" + (IdComponent(id) + extension) }

  // ---- What a restore reads of a name ----

  /** path.Ext: what stands from the last dot of the last component. */
  function Ext(s: string): string {
    if s == "" || s[|s| - 1] == '/' then ""
    else if s[|s| - 1] == '.' then "."
    else
      var e := Ext(s[..|s| - 1]);
      if e == "" then "" else e + [s[|s| - 1]]
  }

  /** What stands before the first slash. */
  function Head(s: string): string {
    if s == "" || s[0] == '/' then "" else [s[0]] + Head(s[1..])
  }

  function Kind(name: string): string { if name == RELATIONSHIPS then "relationships" else Head(name) }

  predicate IsHexText(h: string) { |h| > 0 && forall i :: 0 <= i < |h| ==> '0' <= h[i] <= '9' || 'a' <= h[i] <= 'f' }

  predicate IsEntityKind(kind: string) { kind == "projects" || kind == "cloud_chats" || kind == "local_chats" }

  predicate IsIdName(s: string) { |s| > 3 && s[..3] == "id-" && IsHexText(s[3..]) }

  predicate IsIdFile(s: string, ext: string) { |s| > |ext| && s[|s| - |ext|..] == ext && IsIdName(s[..|s| - |ext|]) }

  /** The entries a native backup may hold. */
  predicate Allowed(name: string) {
    var c := Split(name);
    || name == MANIFEST
    || name == RELATIONSHIPS
    || (|c| == 2 && IsEntityKind(c[0]) && IsIdFile(c[1], ".json"))
    || (|c| == 3 && c[0] == "project_documents" && IsIdName(c[1]) && IsIdFile(c[2], ".json"))
    || (|c| == 2 && c[0] == "images" && (IsIdFile(c[1], ".json") || IsIdFile(c[1], ".bin")))
  }

  /** A path's components. */
  function Split(s: string): seq<string> {
    if s == "" then [""]
    else if s[0] == '/' then [""] + Split(s[1..])
    else
      var rest := Split(s[1..]);
      if rest == [] then [[s[0]]] else [[s[0]] + rest[0]] + rest[1..]
  }

  /** A clean path inside the archive: no component is empty, or the directory or its parent. */
  predicate Safe(name: string) {
    && (name == "." || forall i :: 0 <= i < |Split(name)| ==> Split(name)[i] != "" && Split(name)[i] != "." && Split(name)[i] != "..")
    && forall i :: 0 <= i < |name| ==> name[i] != '\\' && name[i] != '\0'
  }

  // ---- Lemmas ----

  predicate NoSlash(s: string) { forall i :: 0 <= i < |s| ==> s[i] != '/' }

  lemma {:induction false} HexIsText(id: Id)
    ensures id != [] ==> IsHexText(Hex(id))
    ensures id == [] ==> Hex(id) == ""
  {
    if id != [] { HexIsText(id[1..]); }
  }

  lemma {:induction false} HeadCut(a: string, b: string)
    requires NoSlash(a)
    ensures Head(a + "/" + b) == a
  {
    var s := a + "/" + b;
    if a == "" {
      assert s[0] == '/';
    } else {
      assert s[1..] == a[1..] + "/" + b;
      HeadCut(a[1..], b);
    }
  }

  lemma {:induction false} SplitOne(a: string)
    requires NoSlash(a)
    ensures Split(a) == [a]
  {
    if a != "" {
      SplitOne(a[1..]);
      assert [a[0]] + a[1..] == a;
    }
  }

  lemma {:induction false} SplitCut(a: string, b: string)
    requires NoSlash(a)
    ensures Split(a + "/" + b) == [a] + Split(b)
  {
    var s := a + "/" + b;
    if a == "" {
      assert s[0] == '/' && s[1..] == b;
    } else {
      assert s[1..] == a[1..] + "/" + b;
      SplitCut(a[1..], b);
      assert ([a[1..]] + Split(b))[1..] == Split(b);
      assert [a[0]] + a[1..] == a;
    }
  }

  lemma ExtLetter(s: string, c: char)
    requires c != '.' && c != '/'
    ensures Ext(s + [c]) == if Ext(s) == "" then "" else Ext(s) + [c]
  {
    assert (s + [c])[..|s|] == s;
  }

  lemma ExtDot(s: string)
    ensures Ext(s + ".") == "."
  {}

  lemma ExtJson(s: string)
    ensures Ext(s + ".json") == ".json"
  {
    hide Ext;
    ExtDot(s);
    ExtLetter(s + ".", 'j');
    ExtLetter(s + "." + ['j'], 's');
    ExtLetter(s + "." + ['j'] + ['s'], 'o');
    ExtLetter(s + "." + ['j'] + ['s'] + ['o'], 'n');
    assert s + ".json" == s + "." + ['j'] + ['s'] + ['o'] + ['n'];
    assert ".json" == "." + ['j'] + ['s'] + ['o'] + ['n'];
  }

  lemma ExtBin(s: string)
    ensures Ext(s + ".bin") == ".bin"
  {
    hide Ext;
    ExtDot(s);
    ExtLetter(s + ".", 'b');
    ExtLetter(s + "." + ['b'], 'i');
    ExtLetter(s + "." + ['b'] + ['i'], 'n');
    assert s + ".bin" == s + "." + ['b'] + ['i'] + ['n'];
    assert ".bin" == "." + ['b'] + ['i'] + ['n'];
  }

  /** Letters, digits, dashes, dots and underscores: what the writer's names are made of between slashes. */
  predicate IsPlain(s: string) {
    |s| > 2 && forall i :: 0 <= i < |s| ==> s[i] != '/' && s[i] != '\\' && s[i] != '\0'
  }

  lemma SafeTwo(a: string, b: string)
    requires IsPlain(a) && IsPlain(b)
    ensures Safe(a + "/" + b) && Head(a + "/" + b) == a && Split(a + "/" + b) == [a, b]
  {
    hide Split, Head;
    SplitCut(a, b);
    SplitOne(b);
    HeadCut(a, b);
  }

  lemma SafeThree(a: string, b: string, c: string)
    requires IsPlain(a) && IsPlain(b) && IsPlain(c)
    ensures Safe(a + "/" + (b + "/" + c)) && Head(a + "/" + (b + "/" + c)) == a && Split(a + "/" + (b + "/" + c)) == [a, b, c]
  {
    hide Split, Head;
    SplitCut(a, b + "/" + c);
    SplitCut(b, c);
    SplitOne(c);
    HeadCut(a, b + "/" + c);
  }

  lemma ComponentIsPlain(id: Id)
    ensures IsPlain(IdComponent(id)) && IsPlain(IdComponent(id) + ".json") && IsPlain(IdComponent(id) + ".bin")
  {
    hide Hex;
    HexIsText(id);
  }

  lemma ComponentIsId(id: Id)
    requires id != []
    ensures IsIdName(IdComponent(id)) && IsIdFile(IdComponent(id) + ".json", ".json") && IsIdFile(IdComponent(id) + ".bin", ".bin")
  {
    hide Hex;
    HexIsText(id);
    var s := IdComponent(id);
    assert s[..3] == "id-" && s[3..] == Hex(id);
    assert (s + ".json")[..|s|] == s && (s + ".json")[|s|..] == ".json";
    assert (s + ".bin")[..|s|] == s && (s + ".bin")[|s|..] == ".bin";
  }

  /** What the writer names an entry is allowed, safe, and read back as its kind and extension. */
  ghost predicate Named(name: string, kind: string, ext: string) {
    Allowed(name) && Safe(name) && name != MANIFEST && Kind(name) == kind && Ext(name) == ext
  }

  lemma EntityIsNamed(kind: string, id: Id)
    requires IsEntityKind(kind) && id != []
    ensures Named(EntityPath(kind, id), kind, ".json")
  {
    hide Hex, Ext, Head, Safe, Split, IsIdFile;
    var name := EntityPath(kind, id);
    ComponentIsPlain(id);
    ComponentIsId(id);
    SafeTwo(kind, IdComponent(id) + ".json");
    assert name == kind + "/" + IdComponent(id) + ".json";
    ExtJson(kind + "/" + IdComponent(id));
    SlashIsNeither(name, |kind|);
  }

  /** The two entries with no directory have no slash. */
  lemma SlashIsNeither(name: string, i: nat)
    requires i < |name| && name[i] == '/'
    ensures name != MANIFEST && name != RELATIONSHIPS
  {}

  lemma DocumentIsNamed(project: Id, id: Id)
    requires project != [] && id != []
    ensures Named(DocumentPath(project, id), "project_documents", ".json")
  {
    hide Hex, Ext, Head, Safe, Split, IsIdFile, IsIdName;
    var name := DocumentPath(project, id);
    ComponentIsPlain(project);
    ComponentIsPlain(id);
    ComponentIsId(project);
    ComponentIsId(id);
    SafeThree("project_documents", IdComponent(project), IdComponent(id) + ".json");
    assert name == "project_documents" + "/" + IdComponent(project) + "/" + IdComponent(id) + ".json";
    ExtJson("project_documents" + "/" + IdComponent(project) + "/" + IdComponent(id));
    SlashIsNeither(name, |"project_documents"|);
  }

  lemma ImageIsNamed(id: Id)
    requires id != []
    ensures Named(ImagePath(id, ".json"), "images", ".json") && Named(ImagePath(id, ".bin"), "images", ".bin")
  {
    hide Hex, Ext, Head, Safe, Split, IsIdFile;
    ComponentIsPlain(id);
    ComponentIsId(id);
    SafeTwo("images", IdComponent(id) + ".json");
    SafeTwo("images", IdComponent(id) + ".bin");
    assert ImagePath(id, ".json") == "images" + "/" + IdComponent(id) + ".json";
    assert ImagePath(id, ".bin") == "images" + "/" + IdComponent(id) + ".bin";
    ExtJson("images" + "/" + IdComponent(id));
    ExtBin("images" + "/" + IdComponent(id));
    SlashIsNeither(ImagePath(id, ".json"), |"images"|);
    SlashIsNeither(ImagePath(id, ".bin"), |"images"|);
  }

  lemma RelationshipsIsNamed()
    ensures Named(RELATIONSHIPS, "relationships", ".json")
  {
    hide Ext, Split;
    SplitOne(RELATIONSHIPS);
    assert RELATIONSHIPS == "relationships" + ".json";
    ExtJson("relationships");
    assert |RELATIONSHIPS| != |MANIFEST|;
  }

  lemma ManifestIsSafe()
    ensures Allowed(MANIFEST) && Safe(MANIFEST) && Ext(MANIFEST) == ".json"
  {
    hide Ext, Split;
    SplitOne(MANIFEST);
    assert MANIFEST == "manifest" + ".json";
    ExtJson("manifest");
  }
}
