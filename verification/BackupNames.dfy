/**
 Which names a backup's entries may have, exactly, and that no two things have one.
 */
module BackupNames {
  import opened BackupPaths
  import opened Backup
  import opened BackupWriting

  // ---- Which names are allowed ----

  function IdText(h: string): string { "id-" + h }

  function EntityForm(kind: string, h: string): string { kind + "/" + (IdText(h) + ".json") }

  function DocumentForm(p: string, h: string): string { "project_documents" + "/" + (IdText(p) + "/" + (IdText(h) + ".json")) }

  function ImageForm(h: string, ext: string): string { "images" + "/" + (IdText(h) + ext) }

  ghost predicate IsEntityForm(name: string) {
    exists kind, h :: IsEntityKind(kind) && IsHexText(h) && name == EntityForm(kind, h)
  }

  ghost predicate IsDocumentForm(name: string) {
    exists p, h :: IsHexText(p) && IsHexText(h) && name == DocumentForm(p, h)
  }

  ghost predicate IsImageForm(name: string) {
    exists h, ext :: IsHexText(h) && (ext == ".json" || ext == ".bin") && name == ImageForm(h, ext)
  }

  function Join(c: seq<string>): string
    requires |c| > 0
  {
    if |c| == 1 then c[0] else c[0] + "/" + Join(c[1..])
  }

  lemma JoinStep(head: string, rest: seq<string>)
    requires |rest| > 0
    ensures Join([head] + rest) == head + "/" + Join(rest)
  {
    assert ([head] + rest)[1..] == rest;
  }

  lemma JoinOne(s: string)
    ensures Join([s]) == s
  {}

  lemma Regroup(c: char, a: string, b: string)
    ensures [c] + a + "/" + b == [c] + (a + "/" + b)
    ensures "" + "/" + b == "/" + b
  {}

  /** A character before a path is before its first component. */
  lemma JoinLonger(c: char, rest: seq<string>)
    requires |rest| > 0
    ensures Join([[c] + rest[0]] + rest[1..]) == [c] + Join(rest)
    ensures Join([""] + rest) == "/" + Join(rest)
  {
    hide Join;
    JoinStep("", rest);
    Regroup(c, "", Join(rest));
    if |rest| > 1 {
      JoinStep(rest[0], rest[1..]);
      JoinStep([c] + rest[0], rest[1..]);
      Regroup(c, rest[0], Join(rest[1..]));
      assert [rest[0]] + rest[1..] == rest;
    } else {
      JoinOne(rest[0]);
      JoinOne([c] + rest[0]);
      assert rest == [rest[0]] && [[c] + rest[0]] + rest[1..] == [[c] + rest[0]];
    }
  }

  lemma {:induction false} SplitJoins(s: string)
    ensures |Split(s)| > 0 && Join(Split(s)) == s
  {
    hide Join;
    if s == "" {
      JoinNothing();
    } else {
      SplitJoins(s[1..]);
      JoinLonger(s[0], Split(s[1..]));
      assert s == [s[0]] + s[1..];
    }
  }

  lemma JoinNothing()
    ensures Join([""]) == ""
  {}

  lemma JoinTwo(c: seq<string>)
    requires |c| == 2
    ensures Join(c) == c[0] + "/" + c[1]
  {
    assert Join(c[1..]) == c[1];
  }

  lemma JoinThree(c: seq<string>)
    requires |c| == 3
    ensures Join(c) == c[0] + "/" + (c[1] + "/" + c[2])
  {
    assert c[1..][0] == c[1] && c[1..][1] == c[2];
    JoinTwo(c[1..]);
  }

  lemma IdNameIs(s: string)
    requires IsIdName(s)
    ensures |s| > 3 && IsHexText(s[3..]) && s == IdText(s[3..])
  {
    assert s == s[..3] + s[3..];
  }

  lemma IdFileIs(s: string, ext: string) returns (h: string)
    requires IsIdFile(s, ext)
    ensures IsHexText(h) && s == IdText(h) + ext
  {
    var t := s[..|s| - |ext|];
    IdNameIs(t);
    h := t[3..];
    assert s == t + s[|s| - |ext|..];
  }

  lemma FormIsId(h: string)
    requires IsHexText(h)
    ensures IsIdName(IdText(h)) && IsIdFile(IdText(h) + ".json", ".json") && IsIdFile(IdText(h) + ".bin", ".bin")
    ensures NoSlash(IdText(h)) && NoSlash(IdText(h) + ".json") && NoSlash(IdText(h) + ".bin")
  {
    var s := IdText(h);
    assert s[..3] == "id-" && s[3..] == h;
    assert (s + ".json")[..|s|] == s && (s + ".json")[|s|..] == ".json";
    assert (s + ".bin")[..|s|] == s && (s + ".bin")[|s|..] == ".bin";
  }

  /** A name is allowed exactly if it is the manifest's or the relationships', or has one of the three forms. */
  lemma AllowedExactly(name: string)
    ensures Allowed(name) <==>
              name == MANIFEST || name == RELATIONSHIPS || IsEntityForm(name) || IsDocumentForm(name) || IsImageForm(name)
  {
    hide Split, IsHexText, IdText, EntityForm, DocumentForm, ImageForm, IsIdFile, IsIdName, Join;
    if Allowed(name) && name != MANIFEST && name != RELATIONSHIPS { AllowedForms(name); }
    if IsEntityForm(name) { EntityAllowed(name); }
    if IsDocumentForm(name) { DocumentAllowed(name); }
    if IsImageForm(name) { ImageAllowed(name); }
  }

  lemma AllowedForms(name: string)
    requires Allowed(name) && name != MANIFEST && name != RELATIONSHIPS
    ensures IsEntityForm(name) || IsDocumentForm(name) || IsImageForm(name)
  {
    hide Split, IsHexText, IdText, IsIdFile, IsIdName, Join, IsEntityKind;
    var c := Split(name);
    SplitJoins(name);
    if |c| == 2 && IsEntityKind(c[0]) && IsIdFile(c[1], ".json") {
      JoinTwo(c);
      var h := IdFileIs(c[1], ".json");
      assert name == EntityForm(c[0], h);
    } else if |c| == 3 {
      JoinThree(c);
      IdNameIs(c[1]);
      var h := IdFileIs(c[2], ".json");
      assert name == DocumentForm(c[1][3..], h);
    } else {
      JoinTwo(c);
      var ext := if IsIdFile(c[1], ".json") then ".json" else ".bin";
      var h := IdFileIs(c[1], ext);
      assert name == ImageForm(h, ext);
    }
  }

  lemma EntityAllowed(name: string)
    requires IsEntityForm(name)
    ensures Allowed(name)
  {
    hide Split, IsHexText, IdText, IsIdFile, IsIdName;
    var kind, h :| IsEntityKind(kind) && IsHexText(h) && name == EntityForm(kind, h);
    FormIsId(h);
    assert name == kind + "/" + (IdText(h) + ".json");
    SplitCut(kind, IdText(h) + ".json");
    SplitOne(IdText(h) + ".json");
  }

  lemma DocumentAllowed(name: string)
    requires IsDocumentForm(name)
    ensures Allowed(name)
  {
    hide Split, IsHexText, IdText, IsIdFile, IsIdName;
    var p, h :| IsHexText(p) && IsHexText(h) && name == DocumentForm(p, h);
    FormIsId(p);
    FormIsId(h);
    SplitCut("project_documents", IdText(p) + "/" + (IdText(h) + ".json"));
    SplitCut(IdText(p), IdText(h) + ".json");
    SplitOne(IdText(h) + ".json");
  }

  lemma ImageAllowed(name: string)
    requires IsImageForm(name)
    ensures Allowed(name)
  {
    hide Split, IsHexText, IdText, IsIdFile, IsIdName;
    var h, ext :| IsHexText(h) && (ext == ".json" || ext == ".bin") && name == ImageForm(h, ext);
    FormIsId(h);
    SplitCut("images", IdText(h) + ext);
    SplitOne(IdText(h) + ext);
  }

  // ---- Two things never have one name ----

  lemma {:induction false} HexInjective(a: Id, b: Id)
    requires Hex(a) == Hex(b)
    ensures a == b
  {
    if a != [] && b != [] {
      assert Hex(a)[0] == HexDigit(a[0] / 16) && Hex(a)[1] == HexDigit(a[0] % 16);
      assert Hex(b)[0] == HexDigit(b[0] / 16) && Hex(b)[1] == HexDigit(b[0] % 16);
      HexByte(a[0], b[0]);
      assert Hex(a)[2..] == Hex(a[1..]) && Hex(b)[2..] == Hex(b[1..]);
      HexInjective(a[1..], b[1..]);
      assert a == [a[0]] + a[1..] && b == [b[0]] + b[1..];
    }
  }

  lemma HexByte(x: Byte, y: Byte)
    requires HexDigit(x / 16) == HexDigit(y / 16) && HexDigit(x % 16) == HexDigit(y % 16)
    ensures x == y
  {
    assert x == x / 16 * 16 + x % 16 && y == y / 16 * 16 + y % 16;
  }

  /** Text before a mark that the text after it does not hold. */
  lemma CutOnce(a: string, b: string, x: string, y: string)
    requires NoSlash(a) && NoSlash(b) && a + "/" + x == b + "/" + y
    ensures a == b && x == y
  {
    HeadCut(a, x);
    HeadCut(b, y);
    assert (a + "/" + x)[|a| + 1..] == x && (b + "/" + y)[|b| + 1..] == y;
  }

  lemma ComponentsInjective(a: Id, b: Id, ext: string)
    requires IdComponent(a) + ext == IdComponent(b) + ext
    ensures a == b
  {
    hide Hex;
    assert |IdComponent(a)| == |IdComponent(b)|;
    assert (IdComponent(a) + ext)[..|IdComponent(a)|] == IdComponent(a) && (IdComponent(b) + ext)[..|IdComponent(b)|] == IdComponent(b);
    assert IdComponent(a)[3..] == Hex(a) && IdComponent(b)[3..] == Hex(b);
    HexInjective(a, b);
  }

  /** Entities, documents and images of different ids have entries of different names. */
  lemma NamesApart(kind: string, other: string, p: Id, q: Id, a: Id, b: Id, ext: string)
    requires IsEntityKind(kind) && IsEntityKind(other)
    ensures EntityPath(kind, a) == EntityPath(other, b) ==> kind == other && a == b
    ensures DocumentPath(p, a) == DocumentPath(q, b) ==> p == q && a == b
    ensures ImagePath(a, ext) == ImagePath(b, ext) ==> a == b
  {
    hide IdComponent;
    if EntityPath(kind, a) == EntityPath(other, b) {
      CutOnce(kind, other, IdComponent(a) + ".json", IdComponent(b) + ".json");
      ComponentsInjective(a, b, ".json");
    }
    if DocumentPath(p, a) == DocumentPath(q, b) {
      CutOnce("project_documents", "project_documents", IdComponent(p) + "/" + (IdComponent(a) + ".json"), IdComponent(q) + "/" + (IdComponent(b) + ".json"));
      ComponentIsPlain(p);
      ComponentIsPlain(q);
      CutOnce(IdComponent(p), IdComponent(q), IdComponent(a) + ".json", IdComponent(b) + ".json");
      ComponentsInjective(a, b, ".json");
      assert IdComponent(p) + "" == IdComponent(p) && IdComponent(q) + "" == IdComponent(q);
      ComponentsInjective(p, q, "");
    }
    if ImagePath(a, ext) == ImagePath(b, ext) {
      CutOnce("images", "images", IdComponent(a) + ext, IdComponent(b) + ext);
      ComponentsInjective(a, b, ext);
    }
  }

  predicate Digits(s: Id) { |s| > 0 && forall i :: 0 <= i < |s| ==> 48 <= s[i] <= 57 }

  lemma {:induction false} DecimalDigits(n: nat)
    ensures Digits(Decimal(n))
  {
    if n >= 10 { DecimalDigits(n / 10); }
  }

  lemma {:induction false} DecimalInjective(m: nat, n: nat)
    requires Decimal(m) == Decimal(n)
    ensures m == n
  {
    DecimalDigits(m / 10);
    DecimalDigits(n / 10);
    assert Decimal(m)[|Decimal(m)| - 1] == 48 + m % 10 && Decimal(n)[|Decimal(n)| - 1] == 48 + n % 10;
    if m >= 10 && n >= 10 {
      assert Decimal(m)[..|Decimal(m)| - 1] == Decimal(m / 10) && Decimal(n)[..|Decimal(n)| - 1] == Decimal(n / 10);
      DecimalInjective(m / 10, n / 10);
    }
  }

  /** What follows the last slash is told from what stands before it. */
  lemma LastCut(a: Id, x: Id, b: Id, y: Id)
    requires SLASH !in x && SLASH !in y && a + [SLASH] + x == b + [SLASH] + y
    ensures a == b && x == y
  {
    LastNotBefore(a, x, b, y);
    LastNotBefore(b, y, a, x);
    var s, t := a + [SLASH] + x, b + [SLASH] + y;
    assert s[..|a|] == a && t[..|b|] == b && s[|a| + 1..] == x && t[|b| + 1..] == y;
  }

  lemma LastNotBefore(a: Id, x: Id, b: Id, y: Id)
    requires SLASH !in x && a + [SLASH] + x == b + [SLASH] + y
    ensures |a| >= |b|
  {
    var s := a + [SLASH] + x;
    assert forall k :: |a| < k < |s| ==> s[k] == x[k - |a| - 1];
    assert (b + [SLASH] + y)[|b|] == SLASH;
  }

  lemma ImageIdsApart(c: Id, i: nat, j: nat, d: Id, k: nat, l: nat)
    requires ImageId(c, i, j) == ImageId(d, k, l)
    ensures c == d && i == k && j == l
  {
    hide Decimal;
    DecimalDigits(i);
    DecimalDigits(j);
    DecimalDigits(k);
    DecimalDigits(l);
    LastCut(c + [SLASH] + Decimal(i), Decimal(j), d + [SLASH] + Decimal(k), Decimal(l));
    LastCut(c, Decimal(i), d, Decimal(k));
    DecimalInjective(i, k);
    DecimalInjective(j, l);
  }

  const PAGE: Id := [112, 97, 103, 101]

  lemma PageIdIs(x: Id, p: nat)
    ensures PageId(x, p) == (x + [SLASH] + PAGE) + [SLASH] + Decimal(p)
  {
    hide Decimal;
  }

  /** An image's id tells its chat, message and attachment, and a page's its image and page; and no page's is an image's. */
  lemma PageIdsApart(x: Id, p: nat, y: Id, q: nat, c: Id, i: nat, j: nat)
    ensures PageId(x, p) == PageId(y, q) ==> x == y && p == q
    ensures PageId(x, p) != ImageId(c, i, j)
  {
    hide Decimal, PageId;
    PageIdIs(x, p);
    PageIdIs(y, q);
    DecimalDigits(p);
    DecimalDigits(q);
    DecimalDigits(i);
    DecimalDigits(j);
    if PageId(x, p) == PageId(y, q) {
      LastCut(x + [SLASH] + PAGE, Decimal(p), y + [SLASH] + PAGE, Decimal(q));
      LastCut(x, PAGE, y, PAGE);
      DecimalInjective(p, q);
    }
    if PageId(x, p) == ImageId(c, i, j) { PageNotImage(x, Decimal(p), c, Decimal(i), Decimal(j)); }
  }

  lemma PageNotImage(x: Id, p: Id, c: Id, i: Id, j: Id)
    requires Digits(p) && Digits(i) && Digits(j)
    ensures (x + [SLASH] + PAGE) + [SLASH] + p != (c + [SLASH] + i) + [SLASH] + j
  {
    NotPage(i);
    if (x + [SLASH] + PAGE) + [SLASH] + p == (c + [SLASH] + i) + [SLASH] + j {
      LastCut(x + [SLASH] + PAGE, p, c + [SLASH] + i, j);
      LastCut(x, PAGE, c, i);
    }
  }

  lemma NotPage(i: Id)
    requires Digits(i)
    ensures i != PAGE
  {
    assert PAGE[0] == 112 && i[0] <= 57;
  }

  /** An image's bytes may be as large as an image; every other entry as large as a JSON entry. */
  lemma LimitIs(kind: string, project: Id, id: Id)
    requires IsEntityKind(kind) && project != [] && id != []
    ensures Limit(ImagePath(id, ".bin")) == MAX_IMAGE
    ensures Limit(ImagePath(id, ".json")) == MAX_JSON_ENTRY && Limit(EntityPath(kind, id)) == MAX_JSON_ENTRY
    ensures Limit(DocumentPath(project, id)) == MAX_JSON_ENTRY && Limit(RELATIONSHIPS) == MAX_JSON_ENTRY
  {
    hide Ext, Allowed, Safe, Kind, ImagePath, EntityPath, DocumentPath;
    ImageIsNamed(id);
    EntityIsNamed(kind, id);
    DocumentIsNamed(project, id);
    RelationshipsIsNamed();
  }
}
